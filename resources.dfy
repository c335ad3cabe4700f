/**
 * Allocations, the caller-selected ownership policy, and the calls that
 * release allocations.
 *
 * Every pointer the message functions store or release is modelled by the
 * identity of the allocation it points to. A `Handle` is a non-null
 * `char *` or `struct lyd_node *`; `Option<Handle>` is one that may be NULL.
 * Copying (`strdup`, `lyd_dup`) yields a new identity with equal contents.
 */
module Resources {

  /** The identity of one heap allocation. */
  type Id = nat

  datatype Option<+T> = None | Some(value: T)

  /** A non-null pointer: the allocation it points to and what that allocation holds. */
  datatype Handle = Handle(id: Id, text: string)

  /** NC_RPC_PARAMTYPE: what a constructor does with the strings and trees it is given. */
  datatype ParamType =
    | Const       // NC_RPC_PARAMTYPE_CONST: stored as given, never released by the request
    | Free        // NC_RPC_PARAMTYPE_FREE: stored as given and taken over (released by the request)
    | DupAndFree  // NC_RPC_PARAMTYPE_DUP_AND_FREE: a private copy is stored and released by the request

  /** The library routine that releases an allocation. */
  datatype Fn =
    | FreeMem       // free()
    | LydFree       // lyd_free(): a data tree
    | LyxmlFree     // lyxml_free(): an XML fragment
    | LydictRemove  // lydict_remove(): a string of the shared dictionary

  /** One release call that actually releases something. */
  datatype Release = Release(fn: Fn, id: Id)

  /**
   * The effect of calling `fn` on a pointer that may be NULL: every routine
   * above does nothing when given NULL.
   */
  function ReleaseOf(fn: Fn, p: Option<Id>): (r: seq<Release>)
    ensures p.None? ==> r == []
    ensures p.Some? ==> r == [Release(fn, p.value)]
  {
    match p
    case None => []
    case Some(id) => [Release(fn, id)]
  }

  /** The allocation a pointer that may be NULL points to. */
  function IdOf(h: Option<Handle>): (p: Option<Id>)
    ensures p.Some? <==> h.Some?
    ensures h.Some? ==> p.value == h.value.id
  {
    match h
    case None => None
    case Some(handle) => Some(handle.id)
  }

  /** The allocations released by a sequence of release calls, in call order. */
  function IdsOf(events: seq<Release>): (ids: seq<Id>)
    ensures |ids| == |events|
    ensures forall k :: 0 <= k < |events| ==> ids[k] == events[k].id
  {
    seq(|events|, k requires 0 <= k < |events| => events[k].id)
  }

  lemma IdsOfAppend(a: seq<Release>, b: seq<Release>)
    ensures IdsOf(a + b) == IdsOf(a) + IdsOf(b)
  {
  }

  lemma AppendAssoc(a: seq<Release>, b: seq<Release>, c: seq<Release>)
    ensures a + (b + c) == a + b + c
  {
  }

  /** The allocations the non-null pointers of `fields` point to, in field order. */
  function HandleIds(fields: seq<Option<Handle>>): seq<Id>
  {
    if fields == [] then []
    else (if fields[0].Some? then [fields[0].value.id] else []) + HandleIds(fields[1..])
  }

  /** No allocation occurs twice: releasing all of `ids` releases each one exactly once. */
  ghost predicate NoDuplicates(ids: seq<Id>)
  {
    forall a, b :: 0 <= a < b < |ids| ==> ids[a] != ids[b]
  }

  /**
   * What a constructor stores for one argument `given` under policy `pt`:
   * under DupAndFree a non-null argument is replaced by a copy with equal
   * contents, allocated in [lo, hi); a NULL argument is never copied, and
   * under every other policy the caller's pointer is stored unchanged.
   */
  ghost predicate StoredAs(pt: ParamType, given: Option<Handle>, stored: Option<Handle>, lo: Id, hi: Id)
  {
    if pt == DupAndFree && given.Some? then
      stored.Some? && stored.value.text == given.value.text && lo <= stored.value.id < hi
    else
      stored == given
  }

  /** `stored` is what the constructor keeps for the arguments `given`, field by field; copies are distinct allocations. */
  ghost predicate Follows(pt: ParamType, given: seq<Option<Handle>>, stored: seq<Option<Handle>>, lo: Id, hi: Id)
  {
    && |stored| == |given|
    && (forall k :: 0 <= k < |given| ==> StoredAs(pt, given[k], stored[k], lo, hi))
    && (pt == DupAndFree ==>
          forall a, b :: 0 <= a < b < |stored| && stored[a].Some? && stored[b].Some? ==>
            stored[a].value.id != stored[b].value.id)
  }

  /** The fields a constructor stores and the first allocation it has not used. */
  datatype Stored = Stored(fields: seq<Option<Handle>>, next: Id)

  /**
   * The `if (x && paramtype == NC_RPC_PARAMTYPE_DUP_AND_FREE) rpc->f = strdup(x);
   * else rpc->f = x;` steps of a constructor, applied to its string or tree
   * arguments in the order the source handles them. Copies are allocated
   * from `next` upwards.
   */
  function Store(pt: ParamType, given: seq<Option<Handle>>, next: Id): (r: Stored)
    ensures next <= r.next
    ensures Follows(pt, given, r.fields, next, r.next)
    decreases |given|
  {
    if given == [] then Stored([], next)
    else if pt == DupAndFree && given[0].Some? then
      var rest := Store(pt, given[1..], next + 1);
      Stored([Some(Handle(next, given[0].value.text))] + rest.fields, rest.next)
    else
      var rest := Store(pt, given[1..], next);
      Stored([given[0]] + rest.fields, rest.next)
  }

  /**
   * The release calls made so far. The bodies of free(), lyd_free(),
   * lyxml_free() and lydict_remove() are not part of this model: each call
   * is recorded as an event.
   */
  class ReleaseLog {
    ghost var events: seq<Release>

    constructor ()
      ensures events == []
    {
      events := [];
    }

    /** One call of `fn` on the pointer `p`, which may be NULL. */
    method Call(fn: Fn, p: Option<Id>)
      modifies this
      ensures events == old(events) + ReleaseOf(fn, p)
    {
      events := events + ReleaseOf(fn, p);
    }
  }
}
