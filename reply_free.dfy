/**
 * Releasing replies and notifications (`nc_reply_free`, `nc_notif_free`).
 *
 * A reply is an object whose fields the destructor walks and overwrites: the
 * head of a data reply's sibling list is advanced node by node, and an error
 * reply's records are visited with nested counted loops. Every release call
 * is appended to a `ReleaseLog`; the specification functions below say which
 * calls are made, and the lemmas compare them with what a reply owns.
 */
module ReplyFree {
  import opened Resources

  /** NC_RPL: the kind of a reply. */
  datatype ReplyType = Data | Ok | Error | Notif

  /** A data tree node, as far as this file uses it: its allocation and its next sibling. */
  class LydNode {
    const id: Id
    var next: LydNode?

    constructor (id: Id, next: LydNode?)
      ensures this.id == id && this.next == next
    {
      this.id := id;
      this.next := next;
    }
  }

  /** A count-sized array of an error record: the array's own allocation (NULL when never allocated) and its elements. */
  datatype CountedArray = CountedArray(block: Option<Id>, elems: seq<Id>)

  /**
   * One error record (`struct nc_err`): eight dictionary strings, which may be
   * NULL, and four independently sized arrays: `attr`, `elem` and `ns` hold
   * dictionary strings, `other` holds XML fragments.
   */
  datatype ErrRecord = ErrRecord(
    errType: Option<Id>, tag: Option<Id>, severity: Option<Id>, apptag: Option<Id>,
    path: Option<Id>, message: Option<Id>, messageLang: Option<Id>, sid: Option<Id>,
    attr: CountedArray, elem: CountedArray, ns: CountedArray, other: CountedArray)

  /** A notification (`struct nc_notif`): its allocation and its data tree. */
  class Notification {
    const obj: Id
    var tree: Option<Id>

    constructor (obj: Id, tree: Option<Id>)
      ensures this.obj == obj && this.tree == tree
    {
      this.obj := obj;
      this.tree := tree;
    }
  }

  /** What a reply holds when the destructor is called. */
  datatype ReplyValue =
    | DataReply(nodes: seq<Id>)
    | OkReply
    | ErrorReply(records: seq<ErrRecord>)
    | NotifReply(tree: Option<Id>)

  function NodeIds(nodes: seq<LydNode>): (ids: seq<Id>)
    ensures |ids| == |nodes|
    ensures forall k :: 0 <= k < |nodes| ==> ids[k] == nodes[k].id
  {
    seq(|nodes|, k requires 0 <= k < |nodes| => nodes[k].id)
  }

  /**
   * A reply (`struct nc_reply` and the struct its `type` selects). Only the
   * fields of its own kind are meaningful.
   */
  class Reply {
    const obj: Id
    const kind: ReplyType
    /** NC_RPL_DATA: the first node of the sibling list (`data->data`). */
    var data: LydNode?
    /** The nodes of that list, in sibling order. */
    ghost var chain: seq<LydNode>
    /** NC_RPL_ERROR: the records `err[0]` to `err[err_count - 1]`. */
    const err: seq<ErrRecord>
    /** NC_RPL_NOTIF: this same allocation, seen as a notification. */
    const notif: Notification?

    ghost predicate Valid()
      reads this, chain
    {
      && data == (if chain == [] then null else chain[0])
      && (forall k :: 0 <= k < |chain| - 1 ==> chain[k].next == chain[k + 1])
      && (chain != [] ==> chain[|chain| - 1].next == null)
      && (forall a, b :: 0 <= a < b < |chain| ==> chain[a].id != chain[b].id)
      && (kind == Notif ==> notif != null && notif.obj == obj)
    }

    ghost function Value(): ReplyValue
      reads this, notif
    {
      match kind
      case Data => DataReply(NodeIds(chain))
      case Ok => OkReply
      case Error => ErrorReply(err)
      case Notif => if notif == null then NotifReply(None) else NotifReply(notif.tree)
    }
  }

  // ---- Which release calls are made ----

  /** One release call of `fn` per element, in order. */
  function Each(fn: Fn, ids: seq<Id>): (events: seq<Release>)
    ensures |events| == |ids|
    ensures forall k :: 0 <= k < |ids| ==> events[k] == Release(fn, ids[k])
  {
    seq(|ids|, k requires 0 <= k < |ids| => Release(fn, ids[k]))
  }

  /** Release each element with `fn`, then free the array. */
  function ArrayReleases(fn: Fn, a: CountedArray): seq<Release>
  {
    Each(fn, a.elems) + ReleaseOf(FreeMem, a.block)
  }

  /** The calls made for the eight strings of a record. */
  function StringReleases(e: ErrRecord): seq<Release>
  {
    ReleaseOf(LydictRemove, e.errType) + ReleaseOf(LydictRemove, e.tag)
    + ReleaseOf(LydictRemove, e.severity) + ReleaseOf(LydictRemove, e.apptag)
    + ReleaseOf(LydictRemove, e.path) + ReleaseOf(LydictRemove, e.message)
    + ReleaseOf(LydictRemove, e.messageLang) + ReleaseOf(LydictRemove, e.sid)
  }

  /** The calls made for one error record: its eight strings, then its four arrays. */
  function RecordReleases(e: ErrRecord): seq<Release>
  {
    StringReleases(e)
    + ArrayReleases(LydictRemove, e.attr) + ArrayReleases(LydictRemove, e.elem)
    + ArrayReleases(LydictRemove, e.ns) + ArrayReleases(LyxmlFree, e.other)
  }

  /** The calls made for the records, first to last. */
  function ErrorReleases(records: seq<ErrRecord>): seq<Release>
  {
    if records == [] then []
    else ErrorReleases(records[..|records| - 1]) + RecordReleases(records[|records| - 1])
  }

  /** nc_notif_free on a non-null notification: its tree, then the object. */
  function NotifReleases(obj: Id, tree: Option<Id>): seq<Release>
  {
    ReleaseOf(LydFree, tree) + [Release(FreeMem, obj)]
  }

  /** nc_reply_free on a non-null reply, as written: the kind's contents, then `free(reply)`. */
  function ReplyReleases(obj: Id, v: ReplyValue): seq<Release>
  {
    (match v
     case DataReply(nodes) => Each(LydFree, nodes)
     case OkReply => []
     case ErrorReply(records) => ErrorReleases(records)
     case NotifReply(tree) => NotifReleases(obj, tree))
    + [Release(FreeMem, obj)]
  }

  /** nc_reply_free with the notification branch corrected: `nc_notif_free` already frees the object. */
  function ReplyReleasesFixed(obj: Id, v: ReplyValue): (events: seq<Release>)
    ensures !v.NotifReply? ==> events == ReplyReleases(obj, v)
  {
    match v
    case NotifReply(tree) => NotifReleases(obj, tree)
    case _ => ReplyReleases(obj, v)
  }

  // ---- What a reply owns ----

  function OptMs(p: Option<Id>): multiset<Id>
  {
    match p
    case None => multiset{}
    case Some(id) => multiset{id}
  }

  function ArrayOwned(a: CountedArray): multiset<Id>
  {
    multiset(a.elems) + OptMs(a.block)
  }

  function StringsOwned(e: ErrRecord): multiset<Id>
  {
    OptMs(e.errType) + OptMs(e.tag) + OptMs(e.severity) + OptMs(e.apptag)
    + OptMs(e.path) + OptMs(e.message) + OptMs(e.messageLang) + OptMs(e.sid)
  }

  /** Every allocation an error record holds. */
  function RecordOwned(e: ErrRecord): multiset<Id>
  {
    StringsOwned(e) + ArrayOwned(e.attr) + ArrayOwned(e.elem) + ArrayOwned(e.ns) + ArrayOwned(e.other)
  }

  function ErrorOwned(records: seq<ErrRecord>): multiset<Id>
  {
    if records == [] then multiset{}
    else ErrorOwned(records[..|records| - 1]) + RecordOwned(records[|records| - 1])
  }

  /** Every allocation a reply holds, the reply object included. */
  function ReplyOwned(obj: Id, v: ReplyValue): multiset<Id>
  {
    multiset{obj} +
    match v
    case DataReply(nodes) => multiset(nodes)
    case OkReply => multiset{}
    case ErrorReply(records) => ErrorOwned(records)
    case NotifReply(tree) => OptMs(tree)
  }

  // ---- Lemmas ----

  lemma EachIds(fn: Fn, ids: seq<Id>)
    ensures IdsOf(Each(fn, ids)) == ids
  {
  }

  /** The allocations released by `events`, counted with multiplicity. */
  function Ms(events: seq<Release>): multiset<Id>
  {
    multiset(IdsOf(events))
  }

  lemma MsAppend(a: seq<Release>, b: seq<Release>)
    ensures Ms(a + b) == Ms(a) + Ms(b)
  {
    IdsOfAppend(a, b);
  }

  lemma ReleaseOfIds(fn: Fn, p: Option<Id>)
    ensures Ms(ReleaseOf(fn, p)) == OptMs(p)
  {
  }

  /** An array's calls release each element and the array itself, as often as the array holds them. */
  lemma ArrayReleasesOwned(fn: Fn, a: CountedArray)
    ensures Ms(ArrayReleases(fn, a)) == ArrayOwned(a)
  {
    MsAppend(Each(fn, a.elems), ReleaseOf(FreeMem, a.block));
    EachIds(fn, a.elems);
    ReleaseOfIds(FreeMem, a.block);
  }

  lemma StringReleasesOwned(e: ErrRecord)
    ensures Ms(StringReleases(e)) == StringsOwned(e)
  {
    var r1 := ReleaseOf(LydictRemove, e.errType);
    var r2 := ReleaseOf(LydictRemove, e.tag);
    var r3 := ReleaseOf(LydictRemove, e.severity);
    var r4 := ReleaseOf(LydictRemove, e.apptag);
    var r5 := ReleaseOf(LydictRemove, e.path);
    var r6 := ReleaseOf(LydictRemove, e.message);
    var r7 := ReleaseOf(LydictRemove, e.messageLang);
    var r8 := ReleaseOf(LydictRemove, e.sid);
    MsAppend(r1, r2);
    MsAppend(r1 + r2, r3);
    MsAppend(r1 + r2 + r3, r4);
    MsAppend(r1 + r2 + r3 + r4, r5);
    MsAppend(r1 + r2 + r3 + r4 + r5, r6);
    MsAppend(r1 + r2 + r3 + r4 + r5 + r6, r7);
    MsAppend(r1 + r2 + r3 + r4 + r5 + r6 + r7, r8);
    ReleaseOfIds(LydictRemove, e.errType);
    ReleaseOfIds(LydictRemove, e.tag);
    ReleaseOfIds(LydictRemove, e.severity);
    ReleaseOfIds(LydictRemove, e.apptag);
    ReleaseOfIds(LydictRemove, e.path);
    ReleaseOfIds(LydictRemove, e.message);
    ReleaseOfIds(LydictRemove, e.messageLang);
    ReleaseOfIds(LydictRemove, e.sid);
  }

  /** A record's calls release every allocation the record holds, as often as it holds it. */
  lemma RecordReleasesOwned(e: ErrRecord)
    ensures Ms(RecordReleases(e)) == RecordOwned(e)
  {
    var s := StringReleases(e);
    var a1 := ArrayReleases(LydictRemove, e.attr);
    var a2 := ArrayReleases(LydictRemove, e.elem);
    var a3 := ArrayReleases(LydictRemove, e.ns);
    var a4 := ArrayReleases(LyxmlFree, e.other);
    MsAppend(s, a1);
    MsAppend(s + a1, a2);
    MsAppend(s + a1 + a2, a3);
    MsAppend(s + a1 + a2 + a3, a4);
    StringReleasesOwned(e);
    ArrayReleasesOwned(LydictRemove, e.attr);
    ArrayReleasesOwned(LydictRemove, e.elem);
    ArrayReleasesOwned(LydictRemove, e.ns);
    ArrayReleasesOwned(LyxmlFree, e.other);
  }

  lemma ErrorReleasesSnoc(err: seq<ErrRecord>, i: nat)
    requires i < |err|
    ensures ErrorReleases(err[..i + 1]) == ErrorReleases(err[..i]) + RecordReleases(err[i])
  {
    assert err[..i + 1][..i] == err[..i];
  }

  /** The error branch releases every allocation of every record, as often as the records hold it. */
  lemma {:induction false} ErrorReleasesOwned(records: seq<ErrRecord>)
    ensures Ms(ErrorReleases(records)) == ErrorOwned(records)
  {
    if records != [] {
      var init := records[..|records| - 1];
      var last := records[|records| - 1];
      ErrorReleasesOwned(init);
      RecordReleasesOwned(last);
      MsAppend(ErrorReleases(init), RecordReleases(last));
    }
  }

  /**
   * With the notification branch corrected, releasing a reply releases every
   * allocation it owns as often as it owns it: each exactly once when no
   * allocation is held twice.
   */
  lemma ReplyReleasesFixedOwned(obj: Id, v: ReplyValue)
    ensures Ms(ReplyReleasesFixed(obj, v)) == ReplyOwned(obj, v)
  {
    match v
    case DataReply(nodes) => DataReleasesOwned(obj, nodes);
    case OkReply =>
    case ErrorReply(records) => ErrorReplyReleasesOwned(obj, records);
    case NotifReply(tree) => NotifReleasesOwned(obj, tree);
  }

  lemma DataReleasesOwned(obj: Id, nodes: seq<Id>)
    ensures Ms(Each(LydFree, nodes) + [Release(FreeMem, obj)]) == multiset{obj} + multiset(nodes)
  {
    MsAppend(Each(LydFree, nodes), [Release(FreeMem, obj)]);
    EachIds(LydFree, nodes);
  }

  lemma ErrorReplyReleasesOwned(obj: Id, records: seq<ErrRecord>)
    ensures Ms(ErrorReleases(records) + [Release(FreeMem, obj)]) == multiset{obj} + ErrorOwned(records)
  {
    MsAppend(ErrorReleases(records), [Release(FreeMem, obj)]);
    ErrorReleasesOwned(records);
  }

  lemma NotifReleasesOwned(obj: Id, tree: Option<Id>)
    ensures Ms(NotifReleases(obj, tree)) == multiset{obj} + OptMs(tree)
  {
    MsAppend(ReleaseOf(LydFree, tree), [Release(FreeMem, obj)]);
    ReleaseOfIds(LydFree, tree);
  }

  /** A data reply releases its nodes in sibling order, then the reply object. */
  lemma DataReleasesInOrder(obj: Id, nodes: seq<Id>)
    ensures IdsOf(ReplyReleases(obj, DataReply(nodes))) == nodes + [obj]
    ensures forall e :: e in ReplyReleases(obj, DataReply(nodes))[..|nodes|] ==> e.fn == LydFree
  {
    IdsOfAppend(Each(LydFree, nodes), [Release(FreeMem, obj)]);
    EachIds(LydFree, nodes);
    assert ReplyReleases(obj, DataReply(nodes))[..|nodes|] == Each(LydFree, nodes);
  }

  /**
   * As written, a notification reply is freed twice: once by `nc_notif_free`
   * and once more by `nc_reply_free` itself.
   */
  lemma NotifReplyFreedTwice(obj: Id, tree: Option<Id>)
    ensures Ms(ReplyReleases(obj, NotifReply(tree))) == ReplyOwned(obj, NotifReply(tree)) + multiset{obj}
    ensures tree != Some(obj) ==> Ms(ReplyReleases(obj, NotifReply(tree)))[obj] == 2
  {
    var events := ReplyReleases(obj, NotifReply(tree));
    match tree
    case None =>
      assert events == [Release(FreeMem, obj), Release(FreeMem, obj)];
      assert IdsOf(events) == [obj, obj];
    case Some(t) =>
      assert events == [Release(LydFree, t), Release(FreeMem, obj), Release(FreeMem, obj)];
      assert IdsOf(events) == [t, obj, obj];
  }

  // ---- The destructors ----

  /** Release the elements of a counted array with `fn`, then free the array. */
  method ReleaseArray(log: ReleaseLog, fn: Fn, a: CountedArray)
    modifies log
    ensures log.events == old(log.events) + ArrayReleases(fn, a)
  {
    var j := 0;
    while j < |a.elems|
      invariant 0 <= j <= |a.elems|
      invariant log.events == old(log.events) + Each(fn, a.elems[..j])
    {
      assert Each(fn, a.elems[..j + 1]) == Each(fn, a.elems[..j]) + [Release(fn, a.elems[j])];
      log.Call(fn, Some(a.elems[j]));
      j := j + 1;
    }
    assert a.elems[..j] == a.elems;
    log.Call(FreeMem, a.block);
  }

  /** The eight lydict_remove calls on a record's strings. */
  method ReleaseStrings(log: ReleaseLog, e: ErrRecord)
    modifies log
    ensures log.events == old(log.events) + StringReleases(e)
  {
    ghost var start := log.events;
    log.Call(LydictRemove, e.errType);
    log.Call(LydictRemove, e.tag);
    log.Call(LydictRemove, e.severity);
    log.Call(LydictRemove, e.apptag);
    assert log.events == start + (ReleaseOf(LydictRemove, e.errType) + ReleaseOf(LydictRemove, e.tag)
                                  + ReleaseOf(LydictRemove, e.severity) + ReleaseOf(LydictRemove, e.apptag));
    log.Call(LydictRemove, e.path);
    log.Call(LydictRemove, e.message);
    log.Call(LydictRemove, e.messageLang);
    log.Call(LydictRemove, e.sid);
  }

  /** One iteration of the NC_RPL_ERROR loop: the record's eight strings, then its four arrays. */
  method ReleaseRecord(log: ReleaseLog, e: ErrRecord)
    modifies log
    ensures log.events == old(log.events) + RecordReleases(e)
  {
    ghost var start := log.events;
    ReleaseStrings(log, e);
    ghost var done := StringReleases(e);
    ReleaseArray(log, LydictRemove, e.attr);
    AppendAssoc(start, done, ArrayReleases(LydictRemove, e.attr));
    done := done + ArrayReleases(LydictRemove, e.attr);
    ReleaseArray(log, LydictRemove, e.elem);
    AppendAssoc(start, done, ArrayReleases(LydictRemove, e.elem));
    done := done + ArrayReleases(LydictRemove, e.elem);
    ReleaseArray(log, LydictRemove, e.ns);
    AppendAssoc(start, done, ArrayReleases(LydictRemove, e.ns));
    done := done + ArrayReleases(LydictRemove, e.ns);
    ReleaseArray(log, LyxmlFree, e.other);
    AppendAssoc(start, done, ArrayReleases(LyxmlFree, e.other));
  }

  /** The NC_RPL_ERROR branch: the records, first to last. */
  method ReleaseErrors(log: ReleaseLog, err: seq<ErrRecord>)
    modifies log
    ensures log.events == old(log.events) + ErrorReleases(err)
  {
    var i := 0;
    while i < |err|
      invariant 0 <= i <= |err|
      invariant log.events == old(log.events) + ErrorReleases(err[..i])
    {
      ReleaseRecord(log, err[i]);
      ErrorReleasesSnoc(err, i);
      AppendAssoc(old(log.events), ErrorReleases(err[..i]), RecordReleases(err[i]));
      i := i + 1;
    }
    assert err[..i] == err;
  }

  /** The NC_RPL_DATA branch: advance the head to the next sibling, then release the node it left. */
  method ReleaseSiblings(log: ReleaseLog, reply: Reply)
    requires reply.Valid()
    modifies log, reply
    ensures log.events == old(log.events) + Each(LydFree, NodeIds(old(reply.chain)))
    ensures reply.data == null && reply.chain == old(reply.chain)
  {
    ghost var ids := NodeIds(reply.chain);
    ghost var k := 0;
    var node := reply.data;
    while reply.data != null
      invariant 0 <= k <= |reply.chain|
      invariant reply.chain == old(reply.chain)
      invariant forall j :: 0 <= j < |reply.chain| - 1 ==> reply.chain[j].next == reply.chain[j + 1]
      invariant reply.chain != [] ==> reply.chain[|reply.chain| - 1].next == null
      invariant reply.data == (if k < |reply.chain| then reply.chain[k] else null)
      invariant node == reply.data
      invariant log.events == old(log.events) + Each(LydFree, ids[..k])
      decreases |reply.chain| - k
    {
      reply.data := node.next;
      assert Each(LydFree, ids[..k + 1]) == Each(LydFree, ids[..k]) + [Release(LydFree, node.id)];
      log.Call(LydFree, Some(node.id));
      node := reply.data;
      k := k + 1;
    }
    assert ids[..k] == ids;
  }

  /** nc_notif_free */
  method NcNotifFree(log: ReleaseLog, notif: Notification?)
    modifies log
    ensures notif == null ==> log.events == old(log.events)
    ensures notif != null ==> log.events == old(log.events) + NotifReleases(notif.obj, notif.tree)
  {
    if notif == null {
      return;
    }
    log.Call(LydFree, notif.tree);
    log.Call(FreeMem, Some(notif.obj));
  }

  /** nc_reply_free, as written. */
  method NcReplyFree(log: ReleaseLog, reply: Reply?)
    requires reply != null ==> reply.Valid()
    modifies log, reply
    ensures reply == null ==> log.events == old(log.events)
    ensures reply != null ==> log.events == old(log.events) + ReplyReleases(reply.obj, old(reply.Value()))
    ensures reply != null && reply.kind == Data ==> reply.data == null
    ensures reply != null && reply.kind != Data ==> reply.data == old(reply.data)
    ensures reply != null ==> reply.chain == old(reply.chain)
  {
    if reply == null {
      return;
    }
    match reply.kind {
      case Data => ReleaseSiblings(log, reply);
      case Ok =>
      case Error => ReleaseErrors(log, reply.err);
      case Notif => NcNotifFree(log, reply.notif);
    }
    log.Call(FreeMem, Some(reply.obj));
  }

  /** nc_reply_free with the notification branch corrected: the object is freed by `nc_notif_free` only. */
  method NcReplyFreeFixed(log: ReleaseLog, reply: Reply?)
    requires reply != null ==> reply.Valid()
    modifies log, reply
    ensures reply == null ==> log.events == old(log.events)
    ensures reply != null ==> log.events == old(log.events) + ReplyReleasesFixed(reply.obj, old(reply.Value()))
    ensures reply != null && reply.kind == Data ==> reply.data == null
    ensures reply != null && reply.kind != Data ==> reply.data == old(reply.data)
    ensures reply != null ==> reply.chain == old(reply.chain)
  {
    if reply == null {
      return;
    }
    if reply.kind == Notif {
      NcNotifFree(log, reply.notif);
      return;
    }
    match reply.kind {
      case Data => ReleaseSiblings(log, reply);
      case Ok =>
      case Error => ReleaseErrors(log, reply.err);
    }
    log.Call(FreeMem, Some(reply.obj));
  }
}
