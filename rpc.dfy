/**
 * NETCONF operation requests and their constructors (`nc_rpc_generic` ...
 * `nc_rpc_subscribe`). The operations are those of sections 7.1 to 7.9 and
 * 8.3 to 8.6 of RFC 6241, <get-schema> of RFC 6022 and
 * <create-subscription> of RFC 5277, plus two generic forms.
 *
 * A constructor is a function of its arguments, the ownership policy, the
 * outcome of its `malloc` (`mallocOk`) and the first allocation id not yet
 * handed out (`next`). The request object is allocation `next`; copies made
 * under DupAndFree are `next + 1`, `next + 2`, ... in the order the source
 * makes them.
 */
module Requests {
  import opened Resources
  import opened EditOptions

  /** NC_DATASTORE, an enumeration carried through unchanged. */
  type Datastore = int

  type Uint32 = x: int | 0 <= x < 0x1_0000_0000

  /** The node handed to `nc_rpc_generic`: its tree and its sibling links. */
  datatype TreeNode = TreeNode(tree: Handle, next: Option<Id>, prev: Id)

  /** One case per operation kind (the `type` field and the matching struct). */
  datatype Op =
    | Generic(data: Handle, free: bool)
    | GenericXml(xmlStr: Handle, free: bool)
    | GetConfig(source: Datastore, filter: Handle, free: bool)
    | Edit(target: Datastore, defaultOp: EditOption, testOpt: EditOption, errorOpt: EditOption,
           editCont: Handle, free: bool)
    | Copy(target: Datastore, urlTrg: Option<Handle>, source: Datastore, urlConfigSrc: Option<Handle>,
           free: bool)
    | Delete(target: Datastore, url: Option<Handle>, free: bool)
    | Lock(target: Datastore)
    | Unlock(target: Datastore)
    | Get(filter: Handle, free: bool)
    | Kill(sid: Uint32)
    | Commit(confirmed: int, confirmTimeout: Uint32, persist: Option<Handle>, persistId: Option<Handle>,
             free: bool)
    | Discard
    | Cancel(persistId: Option<Handle>, free: bool)
    | Validate(source: Datastore, urlConfigSrc: Option<Handle>, free: bool)
    | GetSchema(identifier: Handle, version: Option<Handle>, format: Option<Handle>, free: bool)
    | Subscribe(stream: Option<Handle>, filter: Handle, start: Option<Handle>, stop: Option<Handle>,
                free: bool)

  /** A request: the allocation of the request object and its operation. */
  datatype Request = Request(obj: Id, op: Op)

  /** Why a constructor returned NULL. */
  datatype RpcError = InvalidArgument | AllocationFailure

  datatype Result<T> = Success(value: T) | Failure(error: RpcError)

  /** A constructed request and the first allocation id it left unused. */
  datatype Built = Built(request: Request, next: Id)

  /** Every string or tree field of an operation, in declaration order. */
  function Fields(op: Op): seq<Option<Handle>>
  {
    match op
    case Generic(data, _) => [Some(data)]
    case GenericXml(xmlStr, _) => [Some(xmlStr)]
    case GetConfig(_, filter, _) => [Some(filter)]
    case Edit(_, _, _, _, editCont, _) => [Some(editCont)]
    case Copy(_, urlTrg, _, urlConfigSrc, _) => [urlTrg, urlConfigSrc]
    case Delete(_, url, _) => [url]
    case Lock(_) => []
    case Unlock(_) => []
    case Get(filter, _) => [Some(filter)]
    case Kill(_) => []
    case Commit(_, _, persist, persistId, _) => [persist, persistId]
    case Discard => []
    case Cancel(persistId, _) => [persistId]
    case Validate(_, urlConfigSrc, _) => [urlConfigSrc]
    case GetSchema(identifier, version, format, _) => [Some(identifier), version, format]
    case Subscribe(stream, filter, start, stop, _) => [stream, Some(filter), start, stop]
  }

  /** The `free` flag; the four kinds without string fields have none. */
  predicate Owns(op: Op)
  {
    match op
    case Lock(_) => false
    case Unlock(_) => false
    case Kill(_) => false
    case Discard => false
    case _ => op.free
  }

  /**
   * `b` is what a constructor given the string or tree arguments `given`
   * builds: the object is allocation `next`, each field is stored according
   * to the policy, and the `free` flag is set for every policy but Const.
   */
  ghost predicate Constructed(b: Built, pt: ParamType, given: seq<Option<Handle>>, next: Id)
  {
    && b.request.obj == next
    && next < b.next
    && Follows(pt, given, Fields(b.request.op), next + 1, b.next)
    && Owns(b.request.op) == (pt != Const)
  }

  // ---- Syntactic checks on the first character ----

  /** `isalpha` in the C locale. */
  predicate IsAlpha(c: char)
  {
    'A' <= c <= 'Z' || 'a' <= c <= 'z'
  }

  /** `s[0]` of a C string: the terminating NUL when the string is empty. */
  function FirstChar(s: string): (c: char)
    ensures s == [] ==> c == '\0'
    ensures s != [] ==> c == s[0]
  {
    if s == [] then '\0' else s[0]
  }

  /** A filter is a subtree (`<`), an XPath expression (`/`) or starts with a letter. */
  predicate IsFilter(s: string)
  {
    FirstChar(s) == '<' || FirstChar(s) == '/' || IsAlpha(FirstChar(s))
  }

  /** Edit content and copy/validate sources are a config (`<`) or a URL (a letter). */
  predicate IsUrlOrConfig(s: string)
  {
    FirstChar(s) == '<' || IsAlpha(FirstChar(s))
  }

  /** A node is a single root when it has no next sibling and is its own previous sibling. */
  predicate IsSingleRoot(n: TreeNode)
  {
    n.next.None? && n.prev == n.tree.id
  }

  // ---- Constructors ----

  /** nc_rpc_generic */
  function NcRpcGeneric(root: TreeNode, pt: ParamType, mallocOk: bool, next: Id): (r: Result<Built>)
    ensures r.Success? <==> IsSingleRoot(root) && mallocOk
    ensures !IsSingleRoot(root) ==> r == Failure(InvalidArgument)
    ensures IsSingleRoot(root) && !mallocOk ==> r == Failure(AllocationFailure)
    ensures r.Success? ==> r.value.request.op.Generic? && Constructed(r.value, pt, [Some(root.tree)], next)
  {
    if !IsSingleRoot(root) then Failure(InvalidArgument)
    else if !mallocOk then Failure(AllocationFailure)
    else
      var s := Store(pt, [Some(root.tree)], next + 1);
      Success(Built(Request(next, Generic(s.fields[0].value, pt != Const)), s.next))
  }

  /** nc_rpc_generic_xml */
  function NcRpcGenericXml(xmlStr: Handle, pt: ParamType, mallocOk: bool, next: Id): (r: Result<Built>)
    ensures r.Success? <==> mallocOk
    ensures !mallocOk ==> r == Failure(AllocationFailure)
    ensures r.Success? ==> r.value.request.op.GenericXml? && Constructed(r.value, pt, [Some(xmlStr)], next)
  {
    if !mallocOk then Failure(AllocationFailure)
    else
      var s := Store(pt, [Some(xmlStr)], next + 1);
      Success(Built(Request(next, GenericXml(s.fields[0].value, pt != Const)), s.next))
  }

  /** nc_rpc_getconfig */
  function NcRpcGetConfig(source: Datastore, filter: Handle, pt: ParamType, mallocOk: bool, next: Id): (r: Result<Built>)
    ensures r.Success? <==> IsFilter(filter.text) && mallocOk
    ensures !IsFilter(filter.text) ==> r == Failure(InvalidArgument)
    ensures IsFilter(filter.text) && !mallocOk ==> r == Failure(AllocationFailure)
    ensures r.Success? ==>
      && r.value.request.op.GetConfig?
      && r.value.request.op.source == source
      && Constructed(r.value, pt, [Some(filter)], next)
  {
    if !IsFilter(filter.text) then Failure(InvalidArgument)
    else if !mallocOk then Failure(AllocationFailure)
    else
      var s := Store(pt, [Some(filter)], next + 1);
      Success(Built(Request(next, GetConfig(source, s.fields[0].value, pt != Const)), s.next))
  }

  /** nc_rpc_edit */
  function NcRpcEdit(target: Datastore, defaultOp: EditOption, testOpt: EditOption, errorOpt: EditOption,
                     editContent: Handle, pt: ParamType, mallocOk: bool, next: Id): (r: Result<Built>)
    ensures r.Success? <==> IsUrlOrConfig(editContent.text) && mallocOk
    ensures !IsUrlOrConfig(editContent.text) ==> r == Failure(InvalidArgument)
    ensures IsUrlOrConfig(editContent.text) && !mallocOk ==> r == Failure(AllocationFailure)
    ensures r.Success? ==>
      && r.value.request.op.Edit?
      && r.value.request.op.target == target
      && r.value.request.op.defaultOp == defaultOp
      && r.value.request.op.testOpt == testOpt
      && r.value.request.op.errorOpt == errorOpt
      && Constructed(r.value, pt, [Some(editContent)], next)
  {
    if !IsUrlOrConfig(editContent.text) then Failure(InvalidArgument)
    else if !mallocOk then Failure(AllocationFailure)
    else
      var s := Store(pt, [Some(editContent)], next + 1);
      Success(Built(Request(next, Edit(target, defaultOp, testOpt, errorOpt, s.fields[0].value, pt != Const)), s.next))
  }

  /** nc_rpc_copy */
  function NcRpcCopy(target: Datastore, urlTrg: Option<Handle>, source: Datastore, urlOrConfigSrc: Option<Handle>,
                     pt: ParamType, mallocOk: bool, next: Id): (r: Result<Built>)
    ensures r.Success? <==> (urlOrConfigSrc.None? || IsUrlOrConfig(urlOrConfigSrc.value.text)) && mallocOk
    ensures urlOrConfigSrc.Some? && !IsUrlOrConfig(urlOrConfigSrc.value.text) ==> r == Failure(InvalidArgument)
    ensures (urlOrConfigSrc.None? || IsUrlOrConfig(urlOrConfigSrc.value.text)) && !mallocOk ==> r == Failure(AllocationFailure)
    ensures r.Success? ==>
      && r.value.request.op.Copy?
      && r.value.request.op.target == target
      && r.value.request.op.source == source
      && Constructed(r.value, pt, [urlTrg, urlOrConfigSrc], next)
  {
    if urlOrConfigSrc.Some? && !IsUrlOrConfig(urlOrConfigSrc.value.text) then Failure(InvalidArgument)
    else if !mallocOk then Failure(AllocationFailure)
    else
      var s := Store(pt, [urlTrg, urlOrConfigSrc], next + 1);
      Success(Built(Request(next, Copy(target, s.fields[0], source, s.fields[1], pt != Const)), s.next))
  }

  /** nc_rpc_delete */
  function NcRpcDelete(target: Datastore, url: Option<Handle>, pt: ParamType, mallocOk: bool, next: Id): (r: Result<Built>)
    ensures r.Success? <==> mallocOk
    ensures !mallocOk ==> r == Failure(AllocationFailure)
    ensures r.Success? ==>
      && r.value.request.op.Delete?
      && r.value.request.op.target == target
      && Constructed(r.value, pt, [url], next)
  {
    if !mallocOk then Failure(AllocationFailure)
    else
      var s := Store(pt, [url], next + 1);
      Success(Built(Request(next, Delete(target, s.fields[0], pt != Const)), s.next))
  }

  /** nc_rpc_lock */
  function NcRpcLock(target: Datastore, mallocOk: bool, next: Id): (r: Result<Built>)
    ensures r.Success? <==> mallocOk
    ensures !mallocOk ==> r == Failure(AllocationFailure)
    ensures r.Success? ==> r.value.request.op == Lock(target) && r.value.request.obj == next && r.value.next == next + 1
  {
    if !mallocOk then Failure(AllocationFailure)
    else Success(Built(Request(next, Lock(target)), next + 1))
  }

  /** nc_rpc_unlock */
  function NcRpcUnlock(target: Datastore, mallocOk: bool, next: Id): (r: Result<Built>)
    ensures r.Success? <==> mallocOk
    ensures !mallocOk ==> r == Failure(AllocationFailure)
    ensures r.Success? ==> r.value.request.op == Unlock(target) && r.value.request.obj == next && r.value.next == next + 1
  {
    if !mallocOk then Failure(AllocationFailure)
    else Success(Built(Request(next, Unlock(target)), next + 1))
  }

  /** nc_rpc_get */
  function NcRpcGet(filter: Handle, pt: ParamType, mallocOk: bool, next: Id): (r: Result<Built>)
    ensures r.Success? <==> IsFilter(filter.text) && mallocOk
    ensures !IsFilter(filter.text) ==> r == Failure(InvalidArgument)
    ensures IsFilter(filter.text) && !mallocOk ==> r == Failure(AllocationFailure)
    ensures r.Success? ==> r.value.request.op.Get? && Constructed(r.value, pt, [Some(filter)], next)
  {
    if !IsFilter(filter.text) then Failure(InvalidArgument)
    else if !mallocOk then Failure(AllocationFailure)
    else
      var s := Store(pt, [Some(filter)], next + 1);
      Success(Built(Request(next, Get(s.fields[0].value, pt != Const)), s.next))
  }

  /** nc_rpc_kill */
  function NcRpcKill(sessionId: Uint32, mallocOk: bool, next: Id): (r: Result<Built>)
    ensures r.Success? <==> mallocOk
    ensures !mallocOk ==> r == Failure(AllocationFailure)
    ensures r.Success? ==> r.value.request.op == Kill(sessionId) && r.value.request.obj == next && r.value.next == next + 1
  {
    if !mallocOk then Failure(AllocationFailure)
    else Success(Built(Request(next, Kill(sessionId)), next + 1))
  }

  /** nc_rpc_commit */
  function NcRpcCommit(confirmed: int, confirmTimeout: Uint32, persist: Option<Handle>, persistId: Option<Handle>,
                       pt: ParamType, mallocOk: bool, next: Id): (r: Result<Built>)
    ensures r.Success? <==> mallocOk
    ensures !mallocOk ==> r == Failure(AllocationFailure)
    ensures r.Success? ==>
      && r.value.request.op.Commit?
      && r.value.request.op.confirmed == confirmed
      && r.value.request.op.confirmTimeout == confirmTimeout
      && Constructed(r.value, pt, [persist, persistId], next)
  {
    if !mallocOk then Failure(AllocationFailure)
    else
      var s := Store(pt, [persist, persistId], next + 1);
      Success(Built(Request(next, Commit(confirmed, confirmTimeout, s.fields[0], s.fields[1], pt != Const)), s.next))
  }

  /** nc_rpc_discard */
  function NcRpcDiscard(mallocOk: bool, next: Id): (r: Result<Built>)
    ensures r.Success? <==> mallocOk
    ensures !mallocOk ==> r == Failure(AllocationFailure)
    ensures r.Success? ==> r.value.request.op == Discard && r.value.request.obj == next && r.value.next == next + 1
  {
    if !mallocOk then Failure(AllocationFailure)
    else Success(Built(Request(next, Discard), next + 1))
  }

  /** nc_rpc_cancel */
  function NcRpcCancel(persistId: Option<Handle>, pt: ParamType, mallocOk: bool, next: Id): (r: Result<Built>)
    ensures r.Success? <==> mallocOk
    ensures !mallocOk ==> r == Failure(AllocationFailure)
    ensures r.Success? ==> r.value.request.op.Cancel? && Constructed(r.value, pt, [persistId], next)
  {
    if !mallocOk then Failure(AllocationFailure)
    else
      var s := Store(pt, [persistId], next + 1);
      Success(Built(Request(next, Cancel(s.fields[0], pt != Const)), s.next))
  }

  /** nc_rpc_validate */
  function NcRpcValidate(source: Datastore, urlOrConfig: Option<Handle>, pt: ParamType, mallocOk: bool, next: Id): (r: Result<Built>)
    ensures r.Success? <==> (urlOrConfig.None? || IsUrlOrConfig(urlOrConfig.value.text)) && mallocOk
    ensures urlOrConfig.Some? && !IsUrlOrConfig(urlOrConfig.value.text) ==> r == Failure(InvalidArgument)
    ensures (urlOrConfig.None? || IsUrlOrConfig(urlOrConfig.value.text)) && !mallocOk ==> r == Failure(AllocationFailure)
    ensures r.Success? ==>
      && r.value.request.op.Validate?
      && r.value.request.op.source == source
      && Constructed(r.value, pt, [urlOrConfig], next)
  {
    if urlOrConfig.Some? && !IsUrlOrConfig(urlOrConfig.value.text) then Failure(InvalidArgument)
    else if !mallocOk then Failure(AllocationFailure)
    else
      var s := Store(pt, [urlOrConfig], next + 1);
      Success(Built(Request(next, Validate(source, s.fields[0], pt != Const)), s.next))
  }

  /** nc_rpc_getschema */
  function NcRpcGetSchema(identifier: Handle, version: Option<Handle>, format: Option<Handle>,
                          pt: ParamType, mallocOk: bool, next: Id): (r: Result<Built>)
    ensures r.Success? <==> mallocOk
    ensures !mallocOk ==> r == Failure(AllocationFailure)
    ensures r.Success? ==>
      r.value.request.op.GetSchema? && Constructed(r.value, pt, [Some(identifier), version, format], next)
  {
    if !mallocOk then Failure(AllocationFailure)
    else
      var s := Store(pt, [Some(identifier), version, format], next + 1);
      Success(Built(Request(next, GetSchema(s.fields[0].value, s.fields[1], s.fields[2], pt != Const)), s.next))
  }

  /** nc_rpc_subscribe */
  function NcRpcSubscribe(streamName: Option<Handle>, filter: Handle, startTime: Option<Handle>, stopTime: Option<Handle>,
                          pt: ParamType, mallocOk: bool, next: Id): (r: Result<Built>)
    ensures r.Success? <==> IsFilter(filter.text) && mallocOk
    ensures !IsFilter(filter.text) ==> r == Failure(InvalidArgument)
    ensures IsFilter(filter.text) && !mallocOk ==> r == Failure(AllocationFailure)
    ensures r.Success? ==>
      r.value.request.op.Subscribe? && Constructed(r.value, pt, [streamName, Some(filter), startTime, stopTime], next)
  {
    if !IsFilter(filter.text) then Failure(InvalidArgument)
    else if !mallocOk then Failure(AllocationFailure)
    else
      var s := Store(pt, [streamName, Some(filter), startTime, stopTime], next + 1);
      Success(Built(Request(next, Subscribe(s.fields[0], s.fields[1].value, s.fields[2], s.fields[3], pt != Const)), s.next))
  }

  // ---- The checks on examples ----

  /**
   * A subtree filter, an XPath filter and a bare name are accepted; a filter
   * starting with a digit and an empty filter are rejected. Edit content may
   * not be an XPath expression.
   */
  lemma FirstCharacterExamples(id: Id, next: Id)
    ensures NcRpcGet(Handle(id, "<filter/>"), Const, true, next).Success?
    ensures NcRpcGet(Handle(id, "/a/b"), Const, true, next).Success?
    ensures NcRpcGet(Handle(id, "abc"), Const, true, next).Success?
    ensures NcRpcGet(Handle(id, "123bad"), Const, true, next) == Failure(InvalidArgument)
    ensures NcRpcGetConfig(0, Handle(id, ""), Const, true, next) == Failure(InvalidArgument)
    ensures NcRpcEdit(0, 0, 0, 0, Handle(id, "/a/b"), Const, true, next) == Failure(InvalidArgument)
    ensures NcRpcValidate(0, None, Const, true, next).Success?
  {
  }

  /** Every config-or-URL argument would also pass as a filter; the converse fails exactly for a leading `/`. */
  lemma UrlOrConfigIsFilter(s: string)
    ensures IsUrlOrConfig(s) ==> IsFilter(s)
    ensures IsFilter(s) && !IsUrlOrConfig(s) <==> s != [] && s[0] == '/'
  {
  }
}
