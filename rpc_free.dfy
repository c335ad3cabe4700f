/**
 * Releasing a request (`nc_rpc_free`), as the release calls it makes.
 *
 * `ReleaseAllOwned` is the reference: a request that owns its fields
 * releases every non-null one, then the object. `NcRpcFree` is the switch of
 * the source; it agrees with the reference on every kind but <copy-config>,
 * whose target URL it never releases.
 */
module RpcFree {
  import opened Resources
  import opened Requests

  /** One release call of `fn` per field, NULL fields included (they release nothing). */
  function ReleaseFields(fn: Fn, fields: seq<Option<Handle>>): (events: seq<Release>)
    ensures forall e :: e in events ==> e.fn == fn
  {
    if fields == [] then []
    else ReleaseOf(fn, IdOf(fields[0])) + ReleaseFields(fn, fields[1..])
  }

  /** The routine that releases a field: data trees go to lyd_free, strings to free. */
  function FieldRelease(op: Op): Fn
  {
    if op.Generic? then LydFree else FreeMem
  }

  /** Reference behaviour: release every field the request owns, then the request object. */
  function ReleaseAllOwned(rq: Request): (events: seq<Release>)
    ensures events != [] && events[|events| - 1] == Release(FreeMem, rq.obj)
    ensures !Owns(rq.op) ==> events == [Release(FreeMem, rq.obj)]
  {
    (if Owns(rq.op) then ReleaseFields(FieldRelease(rq.op), Fields(rq.op)) else [])
    + [Release(FreeMem, rq.obj)]
  }

  /** The request as `nc_rpc_free` treats it: a <copy-config> target URL is never looked at. */
  function AsReleased(rq: Request): (r: Request)
    ensures r.obj == rq.obj && Owns(r.op) == Owns(rq.op)
    ensures !rq.op.Copy? ==> r == rq
    ensures rq.op.Copy? ==> r.op.Copy? && r.op.urlTrg.None? && r.op.urlConfigSrc == rq.op.urlConfigSrc
  {
    if rq.op.Copy? then rq.(op := rq.op.(urlTrg := None)) else rq
  }

  /** nc_rpc_free: the release calls it makes on `rpc` (None is a NULL request). */
  function NcRpcFree(rpc: Option<Request>): (events: seq<Release>)
    ensures rpc.None? ==> events == []
    ensures rpc.Some? ==> events != [] && events[|events| - 1] == Release(FreeMem, rpc.value.obj)
    ensures rpc.Some? && !Owns(rpc.value.op) ==> events == [Release(FreeMem, rpc.value.obj)]
  {
    match rpc
    case None => []
    case Some(rq) =>
      var fields :=
        match rq.op
        case Generic(data, free) => if free then [Release(LydFree, data.id)] else []
        case GenericXml(xmlStr, free) => if free then [Release(FreeMem, xmlStr.id)] else []
        case GetConfig(_, filter, free) => if free then [Release(FreeMem, filter.id)] else []
        case Edit(_, _, _, _, editCont, free) => if free then [Release(FreeMem, editCont.id)] else []
        case Copy(_, _, _, urlConfigSrc, free) =>
          if free then ReleaseOf(FreeMem, IdOf(urlConfigSrc)) else []
        case Delete(_, url, free) => if free then ReleaseOf(FreeMem, IdOf(url)) else []
        case Get(filter, free) => if free then [Release(FreeMem, filter.id)] else []
        case Commit(_, _, persist, persistId, free) =>
          if free then ReleaseOf(FreeMem, IdOf(persist)) + ReleaseOf(FreeMem, IdOf(persistId)) else []
        case Cancel(persistId, free) => if free then ReleaseOf(FreeMem, IdOf(persistId)) else []
        case Validate(_, urlConfigSrc, free) =>
          if free then ReleaseOf(FreeMem, IdOf(urlConfigSrc)) else []
        case GetSchema(identifier, version, format, free) =>
          if free then [Release(FreeMem, identifier.id)] + ReleaseOf(FreeMem, IdOf(version))
                       + ReleaseOf(FreeMem, IdOf(format))
          else []
        case Subscribe(stream, filter, start, stop, free) =>
          if free then ReleaseOf(FreeMem, IdOf(stream)) + [Release(FreeMem, filter.id)]
                       + ReleaseOf(FreeMem, IdOf(start)) + ReleaseOf(FreeMem, IdOf(stop))
          else []
        case Kill(_) => []
        case Discard => []
        case Lock(_) => []
        case Unlock(_) => []
      ;
      fields + [Release(FreeMem, rq.obj)]
  }

  // ---- Lemmas about the release calls ----

  lemma ReleaseFieldsOne(fn: Fn, a: Option<Handle>)
    ensures ReleaseFields(fn, [a]) == ReleaseOf(fn, IdOf(a))
  {
    assert [a][1..] == [];
  }

  lemma ReleaseFieldsTwo(fn: Fn, a: Option<Handle>, b: Option<Handle>)
    ensures ReleaseFields(fn, [a, b]) == ReleaseOf(fn, IdOf(a)) + ReleaseOf(fn, IdOf(b))
  {
    assert [a, b][1..] == [b];
    ReleaseFieldsOne(fn, b);
  }

  lemma ReleaseFieldsThree(fn: Fn, a: Option<Handle>, b: Option<Handle>, c: Option<Handle>)
    ensures ReleaseFields(fn, [a, b, c]) == ReleaseOf(fn, IdOf(a)) + ReleaseOf(fn, IdOf(b)) + ReleaseOf(fn, IdOf(c))
  {
    assert [a, b, c][1..] == [b, c];
    ReleaseFieldsTwo(fn, b, c);
  }

  lemma ReleaseFieldsFour(fn: Fn, a: Option<Handle>, b: Option<Handle>, c: Option<Handle>, d: Option<Handle>)
    ensures ReleaseFields(fn, [a, b, c, d])
         == ReleaseOf(fn, IdOf(a)) + ReleaseOf(fn, IdOf(b)) + ReleaseOf(fn, IdOf(c)) + ReleaseOf(fn, IdOf(d))
  {
    assert [a, b, c, d][1..] == [b, c, d];
    ReleaseFieldsThree(fn, b, c, d);
  }

  /**
   * The switch of `nc_rpc_free` releases what the reference releases, for
   * every kind, except that a <copy-config> target URL is treated as NULL.
   */
  lemma NcRpcFreeMatchesReference(rq: Request)
    ensures NcRpcFree(Some(rq)) == ReleaseAllOwned(AsReleased(rq))
  {
    if rq.op.Copy? || rq.op.Commit? {
      TwoFieldsMatchReference(rq);
    } else if rq.op.GetSchema? || rq.op.Subscribe? {
      ManyFieldsMatchReference(rq);
    } else {
      OneFieldMatchesReference(rq);
    }
  }

  /** The kinds with two string fields. */
  lemma TwoFieldsMatchReference(rq: Request)
    requires rq.op.Copy? || rq.op.Commit?
    ensures NcRpcFree(Some(rq)) == ReleaseAllOwned(AsReleased(rq))
  {
    match rq.op
    case Copy(_, _, _, urlConfigSrc, _) => ReleaseFieldsTwo(FreeMem, None, urlConfigSrc);
    case Commit(_, _, persist, persistId, _) => ReleaseFieldsTwo(FreeMem, persist, persistId);
  }

  /** The kinds with three or four string fields. */
  lemma ManyFieldsMatchReference(rq: Request)
    requires rq.op.GetSchema? || rq.op.Subscribe?
    ensures NcRpcFree(Some(rq)) == ReleaseAllOwned(AsReleased(rq))
  {
    match rq.op
    case GetSchema(identifier, version, format, _) =>
      ReleaseFieldsThree(FreeMem, Some(identifier), version, format);
    case Subscribe(stream, filter, start, stop, _) =>
      ReleaseFieldsFour(FreeMem, stream, Some(filter), start, stop);
  }

  /** The kinds with at most one field. */
  lemma OneFieldMatchesReference(rq: Request)
    requires !(rq.op.Copy? || rq.op.Commit? || rq.op.GetSchema? || rq.op.Subscribe?)
    ensures NcRpcFree(Some(rq)) == ReleaseAllOwned(AsReleased(rq))
  {
    match rq.op
    case Generic(data, _) => ReleaseFieldsOne(LydFree, Some(data));
    case GenericXml(xmlStr, _) => ReleaseFieldsOne(FreeMem, Some(xmlStr));
    case GetConfig(_, filter, _) => ReleaseFieldsOne(FreeMem, Some(filter));
    case Edit(_, _, _, _, editCont, _) => ReleaseFieldsOne(FreeMem, Some(editCont));
    case Delete(_, url, _) => ReleaseFieldsOne(FreeMem, url);
    case Get(filter, _) => ReleaseFieldsOne(FreeMem, Some(filter));
    case Cancel(persistId, _) => ReleaseFieldsOne(FreeMem, persistId);
    case Validate(_, urlConfigSrc, _) => ReleaseFieldsOne(FreeMem, urlConfigSrc);
    case Lock(_) =>
    case Unlock(_) =>
    case Kill(_) =>
    case Discard =>
  }

  /** Releasing the fields releases exactly their non-null allocations, in field order. */
  lemma {:induction false} ReleaseFieldsIds(fn: Fn, fields: seq<Option<Handle>>)
    ensures IdsOf(ReleaseFields(fn, fields)) == HandleIds(fields)
  {
    if fields != [] {
      ReleaseFieldsIds(fn, fields[1..]);
      IdsOfAppend(ReleaseOf(fn, IdOf(fields[0])), ReleaseFields(fn, fields[1..]));
    }
  }

  /** The reference releases the owned fields' allocations in field order, then the object. */
  lemma ReleaseAllOwnedIds(rq: Request)
    ensures IdsOf(ReleaseAllOwned(rq)) == (if Owns(rq.op) then HandleIds(Fields(rq.op)) else []) + [rq.obj]
  {
    var fieldEvents := if Owns(rq.op) then ReleaseFields(FieldRelease(rq.op), Fields(rq.op)) else [];
    IdsOfAppend(fieldEvents, [Release(FreeMem, rq.obj)]);
    if Owns(rq.op) {
      ReleaseFieldsIds(FieldRelease(rq.op), Fields(rq.op));
    }
  }

  /** Under any policy but DupAndFree every field is the caller's pointer itself. */
  lemma FollowsWithoutCopy(pt: ParamType, given: seq<Option<Handle>>, stored: seq<Option<Handle>>, lo: Id, hi: Id)
    requires pt != DupAndFree
    requires Follows(pt, given, stored, lo, hi)
    ensures stored == given
  {
  }

  /**
   * Copies made under DupAndFree are pairwise distinct allocations in
   * [lo, hi), one per non-null argument.
   */
  lemma {:induction false} CopiesAreFresh(given: seq<Option<Handle>>, stored: seq<Option<Handle>>, lo: Id, hi: Id)
    requires Follows(DupAndFree, given, stored, lo, hi)
    ensures |HandleIds(stored)| == |HandleIds(given)|
    ensures NoDuplicates(HandleIds(stored))
    ensures forall x :: x in HandleIds(stored) ==> lo <= x < hi
  {
    if given != [] {
      assert Follows(DupAndFree, given[1..], stored[1..], lo, hi) by {
        forall k | 0 <= k < |given[1..]|
          ensures StoredAs(DupAndFree, given[1..][k], stored[1..][k], lo, hi)
        {
          assert StoredAs(DupAndFree, given[k + 1], stored[k + 1], lo, hi);
        }
        forall a, b | 0 <= a < b < |stored[1..]| && stored[1..][a].Some? && stored[1..][b].Some?
          ensures stored[1..][a].value.id != stored[1..][b].value.id
        {
          assert stored[a + 1] == stored[1..][a] && stored[b + 1] == stored[1..][b];
        }
      }
      CopiesAreFresh(given[1..], stored[1..], lo, hi);
      assert StoredAs(DupAndFree, given[0], stored[0], lo, hi);
      var rest := HandleIds(stored[1..]);
      if stored[0].Some? {
        var head := stored[0].value.id;
        var ids := HandleIds(stored);
        assert ids == [head] + rest;
        forall x | x in rest ensures x != head {
          var j := IndexOfField(stored[1..], x);
          assert stored[j + 1] == stored[1..][j];
        }
        forall a, b | 0 <= a < b < |ids| ensures ids[a] != ids[b] {
          assert ids[b] == rest[b - 1] && rest[b - 1] in rest;
          if a > 0 {
            assert ids[a] == rest[a - 1];
          }
        }
      } else {
        assert HandleIds(stored) == rest;
      }
    }
  }

  /** A position in `fields` holding the allocation `x`, which `HandleIds` lists. */
  lemma {:induction false} IndexOfField(fields: seq<Option<Handle>>, x: Id) returns (j: nat)
    requires x in HandleIds(fields)
    ensures j < |fields| && fields[j].Some? && fields[j].value.id == x
  {
    if fields[0].Some? && fields[0].value.id == x {
      j := 0;
    } else {
      assert HandleIds(fields) == (if fields[0].Some? then [fields[0].value.id] else []) + HandleIds(fields[1..]);
      var i := IndexOfField(fields[1..], x);
      j := i + 1;
    }
  }

  // ---- Construct, then release ----

  /** A request built under Const releases only the request object: the caller's strings and trees stay alive. */
  lemma ConstReleasesOnlyObject(b: Built, given: seq<Option<Handle>>, next: Id)
    requires Constructed(b, Const, given, next)
    ensures ReleaseAllOwned(b.request) == [Release(FreeMem, next)]
    ensures NcRpcFree(Some(b.request)) == [Release(FreeMem, next)]
  {
  }

  /**
   * A request built under Free has taken over the caller's pointers: it
   * releases exactly the caller's non-null arguments, in order, then itself.
   */
  lemma TakeOverReleasesArguments(b: Built, given: seq<Option<Handle>>, next: Id)
    requires Constructed(b, Free, given, next)
    ensures IdsOf(ReleaseAllOwned(b.request)) == HandleIds(given) + [next]
  {
    FollowsWithoutCopy(Free, given, Fields(b.request.op), next + 1, b.next);
    ReleaseAllOwnedIds(b.request);
  }

  /**
   * A request built under DupAndFree releases its own copies, one per
   * non-null argument, and the object, each exactly once; none of the
   * caller's allocations (all older than `next`) is released.
   */
  lemma DupReleasesCopiesOnce(b: Built, given: seq<Option<Handle>>, next: Id)
    requires Constructed(b, DupAndFree, given, next)
    requires forall x :: x in HandleIds(given) ==> x < next
    ensures |IdsOf(ReleaseAllOwned(b.request))| == |HandleIds(given)| + 1
    ensures NoDuplicates(IdsOf(ReleaseAllOwned(b.request)))
    ensures forall x :: x in HandleIds(given) ==> x !in IdsOf(ReleaseAllOwned(b.request))
  {
    var stored := Fields(b.request.op);
    CopiesAreFresh(given, stored, next + 1, b.next);
    ReleaseAllOwnedIds(b.request);
    AppendFresh(HandleIds(stored), next + 1, next);
  }

  /**
   * For every kind but <copy-config>, `nc_rpc_free` as written makes the
   * calls of the reference: under Free it releases exactly the caller's
   * non-null arguments, in order, then the object.
   */
  lemma NcRpcFreeTakesOverArguments(b: Built, given: seq<Option<Handle>>, next: Id)
    requires Constructed(b, Free, given, next)
    requires !b.request.op.Copy?
    ensures IdsOf(NcRpcFree(Some(b.request))) == HandleIds(given) + [next]
  {
    NcRpcFreeMatchesReference(b.request);
    TakeOverReleasesArguments(b, given, next);
  }

  /**
   * For every kind but <copy-config>, `nc_rpc_free` as written releases the
   * copies made under DupAndFree and the object, each exactly once, and none
   * of the caller's allocations.
   */
  lemma NcRpcFreeReleasesCopiesOnce(b: Built, given: seq<Option<Handle>>, next: Id)
    requires Constructed(b, DupAndFree, given, next)
    requires forall x :: x in HandleIds(given) ==> x < next
    requires !b.request.op.Copy?
    ensures |IdsOf(NcRpcFree(Some(b.request)))| == |HandleIds(given)| + 1
    ensures NoDuplicates(IdsOf(NcRpcFree(Some(b.request))))
    ensures forall x :: x in HandleIds(given) ==> x !in IdsOf(NcRpcFree(Some(b.request)))
  {
    NcRpcFreeMatchesReference(b.request);
    DupReleasesCopiesOnce(b, given, next);
  }

  /** Appending an allocation older than all of `ids` keeps them duplicate-free. */
  lemma AppendFresh(ids: seq<Id>, lo: Id, x: Id)
    requires NoDuplicates(ids)
    requires forall y :: y in ids ==> lo <= y
    requires x < lo
    ensures NoDuplicates(ids + [x])
    ensures forall y :: y < lo && y != x ==> y !in ids + [x]
  {
    var all := ids + [x];
    forall a, b | 0 <= a < b < |all| ensures all[a] != all[b] {
      assert all[a] == ids[a];
      if b < |ids| {
        assert all[b] == ids[b];
      } else {
        assert ids[a] in ids;
      }
    }
  }

  // ---- The <copy-config> target URL ----

  /**
   * As written, `nc_rpc_free` never releases the <copy-config> target URL,
   * although the request owns it under both owning policies: the copy made
   * under DupAndFree, or the caller's string taken over under Free, is
   * leaked, while the reference releases it.
   */
  lemma CopyTargetLeaked(target: Datastore, urlTrg: Handle, source: Datastore, src: Option<Handle>,
                         pt: ParamType, next: Id)
    requires pt != Const
    requires urlTrg.id < next
    requires pt == Free && src.Some? ==> src.value.id != urlTrg.id
    requires NcRpcCopy(target, Some(urlTrg), source, src, pt, true, next).Success?
    ensures var rq := NcRpcCopy(target, Some(urlTrg), source, src, pt, true, next).value.request;
            && rq.op.urlTrg.Some?
            && rq.op.urlTrg.value.text == urlTrg.text
            && (pt == DupAndFree ==> rq.op.urlTrg.value.id != urlTrg.id)
            && (pt == Free ==> rq.op.urlTrg.value.id == urlTrg.id)
            && rq.op.urlTrg.value.id in IdsOf(ReleaseAllOwned(rq))
            && rq.op.urlTrg.value.id !in IdsOf(NcRpcFree(Some(rq)))
  {
    var b := NcRpcCopy(target, Some(urlTrg), source, src, pt, true, next).value;
    var rq := b.request;
    var stored := Fields(rq.op);
    assert stored == [rq.op.urlTrg, rq.op.urlConfigSrc];
    assert StoredAs(pt, Some(urlTrg), stored[0], next + 1, b.next);
    var owned := rq.op.urlTrg.value.id;
    ReleaseAllOwnedIds(rq);
    ReleaseAllOwnedIds(AsReleased(rq));
    NcRpcFreeMatchesReference(rq);
    assert HandleIds(stored) == [owned] + HandleIds([rq.op.urlConfigSrc]);
    assert HandleIds(Fields(AsReleased(rq).op)) == HandleIds([rq.op.urlConfigSrc]);
    if pt == DupAndFree {
      CopiesAreFresh([Some(urlTrg), src], stored, next + 1, b.next);
      assert owned !in HandleIds([rq.op.urlConfigSrc]) by {
        assert NoDuplicates(HandleIds(stored));
      }
    } else {
      FollowsWithoutCopy(pt, [Some(urlTrg), src], stored, next + 1, b.next);
      assert owned !in HandleIds([rq.op.urlConfigSrc]);
    }
  }

  /**
   * Under Free a request takes over the pointers it is given, so handing it
   * the same string twice makes `nc_rpc_free` release that string twice.
   */
  lemma TakeOverAliasReleasedTwice(confirmed: int, timeout: Uint32, persist: Handle, next: Id)
    ensures var b := NcRpcCommit(confirmed, timeout, Some(persist), Some(persist), Free, true, next).value;
            IdsOf(NcRpcFree(Some(b.request))) == [persist.id, persist.id, next]
  {
    var b := NcRpcCommit(confirmed, timeout, Some(persist), Some(persist), Free, true, next).value;
    FollowsWithoutCopy(Free, [Some(persist), Some(persist)], Fields(b.request.op), next + 1, b.next);
  }
}
