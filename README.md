# libnetconf2 message objects: construction and release

This project models `src/messages.c` of libnetconf2. That file holds the
NETCONF request constructors (`nc_rpc_generic` … `nc_rpc_subscribe`), the
request destructor `nc_rpc_free`, and the destructors `nc_reply_free` and
`nc_notif_free`. The model is about memory ownership: which allocations a
message stores, which it owns, and which `free`, `lyd_free`, `lyxml_free` and
`lydict_remove` calls releasing it makes.

- `resources.dfy` (module `Resources`): allocations are modelled by their
  identity (`Id`). A pointer is a `Handle` (its allocation and contents), or
  `Option<Handle>` where it may be NULL. The three `NC_RPC_PARAMTYPE` values
  are `ParamType`. A release call is the event `Release(fn, id)`, and calls on
  NULL record nothing. `Store` is the "copy under DUP_AND_FREE, otherwise keep
  the caller's pointer" step every constructor repeats. `ReleaseLog` is the
  ghost record of release calls that the imperative destructors append to.
- `edit_options.dfy` (module `EditOptions`): the three `<edit-config>` keyword
  tables.
- `rpc.dfy` (module `Requests`): the 16 request kinds and their constructors.
  Constructors are pure functions of:
  - their arguments and the policy;
  - whether `malloc` succeeds (`mallocOk`);
  - the first unused allocation id (`next`).

  The request object is allocation `next`. Copies are `next+1`, `next+2`, …
- `rpc_free.dfy` (module `RpcFree`): `nc_rpc_free` as a function returning the
  release calls it makes. It is compared with `ReleaseAllOwned`, a reference
  that releases every field the request owns.
- `reply_free.dfy` (module `ReplyFree`): `nc_reply_free` and `nc_notif_free`
  as methods over objects. The data reply's sibling chain is a linked
  `LydNode` list that the loop unlinks in place. Each method is proved equal
  to a specification function of the reply's value, and those functions are
  compared with the multiset of allocations the reply owns.

On ownership and NULL handling the model follows `src/messages.c`:

- Under `NC_RPC_PARAMTYPE_FREE` the constructors set `free = 1`. So the
  request takes over the caller's strings (`ParamType.Free`) rather than
  borrowing them.
- The filter of `nc_rpc_getconfig`, `nc_rpc_get` and `nc_rpc_subscribe` is
  dereferenced before any NULL test. It is therefore a non-null `Handle`.
- `nc_notif_free` releases the notification's tree and the notification
  itself, and no separate XML fragment.
- Two release defects of the source are reproduced and listed under
  Findings.

## Model

| member | source | states |
|---|---|---|
| Resources.Store | src/messages.c:164-174 | each argument is replaced by a fresh copy with equal text under DUP_AND_FREE when non-null, and stored unchanged otherwise; copies are pairwise distinct and allocated in [next, r.next) |
| EditOptions.DefaultOpName | src/messages.c:32 | option 0 has no keyword; options 1-3 are "merge", "replace", "none" |
| EditOptions.TestOptName | src/messages.c:33 | option 0 has no keyword; options 1-3 are "test-then-set", "set", "test-only" |
| EditOptions.ErrorOptName | src/messages.c:34 | option 0 has no keyword; options 1-3 are "stop-on-error", "continue-on-error", "rollback-on-error" |
| EditOptions.EditOptionNamesDistinct | src/messages.c:32-34 | within each table, distinct options have distinct keywords |
| Requests.NcRpcGeneric | src/messages.c:36-61 | fails with InvalidArgument unless the node is a single root (no next sibling, its own prev); fails on allocation failure; otherwise a Generic request that stores the tree (a copy under DUP_AND_FREE) and owns it iff the policy is not CONST |
| Requests.NcRpcGenericXml | src/messages.c:63-83 | succeeds iff malloc succeeds; stores the XML string per the policy and owns it iff the policy is not CONST |
| Requests.NcRpcGetConfig | src/messages.c:85-111 | filter must start with '<', '/' or a letter, else InvalidArgument; then allocation failure; otherwise source kept and filter stored per the policy |
| Requests.NcRpcEdit | src/messages.c:113-143 | edit content must start with '<' or a letter, else InvalidArgument; the datastore and the three options are kept; content stored per the policy |
| Requests.NcRpcCopy | src/messages.c:145-178 | a non-null source must start with '<' or a letter, else InvalidArgument; NULL source accepted; both URLs stored per the policy with NULL never copied |
| Requests.NcRpcDelete | src/messages.c:180-201 | succeeds iff malloc succeeds; target kept, URL (may be NULL) stored per the policy |
| Requests.NcRpcLock | src/messages.c:203-218 | succeeds iff malloc succeeds; Lock of the target, request is allocation next and nothing else is allocated |
| Requests.NcRpcUnlock | src/messages.c:220-235 | as Lock, for Unlock |
| Requests.NcRpcGet | src/messages.c:237-262 | filter must start with '<', '/' or a letter, else InvalidArgument; filter stored per the policy |
| Requests.NcRpcKill | src/messages.c:264-279 | succeeds iff malloc succeeds; the 32-bit session id is kept |
| Requests.NcRpcCommit | src/messages.c:281-309 | succeeds iff malloc succeeds; confirmed flag and timeout kept; persist and persist-id stored per the policy, in that order |
| Requests.NcRpcDiscard | src/messages.c:311-325 | succeeds iff malloc succeeds; a Discard request with no fields |
| Requests.NcRpcCancel | src/messages.c:327-347 | succeeds iff malloc succeeds; persist-id stored per the policy |
| Requests.NcRpcValidate | src/messages.c:349-375 | a non-null source must start with '<' or a letter, else InvalidArgument; NULL accepted; source stored per the policy |
| Requests.NcRpcGetSchema | src/messages.c:377-407 | succeeds iff malloc succeeds; identifier, version and format stored per the policy |
| Requests.NcRpcSubscribe | src/messages.c:409-450 | filter must start with '<', '/' or a letter, else InvalidArgument; stream, filter, start and stop stored per the policy |
| Requests.FirstCharacterExamples | src/messages.c:85-143 | concrete inputs: XML, XPath and bare-name filters are accepted; a digit or an empty filter is rejected; edit content starting with '/' is rejected; validate with a NULL source succeeds |
| Requests.UrlOrConfigIsFilter | src/messages.c:119-122 | every accepted edit/copy/validate source is an accepted filter; the two checks differ exactly on a leading '/' |
| RpcFree.NcRpcFree | src/messages.c:459-567 | NULL releases nothing; otherwise the last call frees the request object; a request that owns nothing releases only the object |
| RpcFree.ReleaseAllOwned | src/messages.c:479-566 | corrected reference: the owned fields are released, then the object last; a request that owns nothing releases only the object |
| RpcFree.ReleaseAllOwnedIds | src/messages.c:479-566 | the reference releases the non-null fields in field order when the request owns them, then the object |
| RpcFree.AsReleased | src/messages.c:504-509 | the copy-config request as nc_rpc_free sees it: url_trg dropped, everything else unchanged |
| RpcFree.NcRpcFreeMatchesReference | src/messages.c:479-566 | for every request, nc_rpc_free makes exactly the calls of "release every owned field with its routine, then the object", except url_trg of a copy-config request |
| RpcFree.FollowsWithoutCopy | src/messages.c:164-174 | under CONST and FREE the stored fields are exactly the caller's pointers |
| RpcFree.CopiesAreFresh | src/messages.c:164-174 | under DUP_AND_FREE there is one copy per non-null argument; the copies are distinct and freshly allocated |
| RpcFree.ConstReleasesOnlyObject | src/messages.c:475-566 | a request built under CONST releases only its own object, in both nc_rpc_free and the reference |
| RpcFree.TakeOverReleasesArguments | src/messages.c:475-566 | the corrected reference ReleaseAllOwned, for a request built under FREE, releases exactly the caller's non-null arguments, in order, then the object |
| RpcFree.DupReleasesCopiesOnce | src/messages.c:475-566 | the corrected reference ReleaseAllOwned, for a request built under DUP_AND_FREE, releases each copy and the object exactly once and none of the caller's allocations |
| RpcFree.NcRpcFreeTakesOverArguments | src/messages.c:475-566 | nc_rpc_free as written, for a request of any kind but copy-config built under FREE, releases exactly the caller's non-null arguments, in order, then the object |
| RpcFree.NcRpcFreeReleasesCopiesOnce | src/messages.c:475-566 | nc_rpc_free as written, for a request of any kind but copy-config built under DUP_AND_FREE, releases each copy and the object exactly once and none of the caller's allocations |
| RpcFree.CopyTargetLeaked | src/messages.c:504-508 | as written: under DUP_AND_FREE (the copy of url_trg) and under FREE (the caller's url_trg, when it is not also the source) the request owns url_trg, the reference releases it, and nc_rpc_free never does |
| RpcFree.TakeOverAliasReleasedTwice | src/messages.c:522-527 | one string passed as both persist and persist-id under FREE is released twice |
| ReplyFree.ReplyReleasesFixed | src/messages.c:621-625 | the corrected release sequence differs from the as-written one only for notification replies |
| ReplyFree.ArrayReleasesOwned | src/messages.c:603-618 | releasing a counted array (elements, then the block) releases exactly its elements and its block |
| ReplyFree.StringReleasesOwned | src/messages.c:595-602 | the eight dictionary strings of a record are each released once, NULL ones not at all |
| ReplyFree.RecordReleasesOwned | src/messages.c:595-618 | releasing an error record releases exactly what it owns |
| ReplyFree.ErrorReleasesOwned | src/messages.c:594-619 | the loop over err_count records releases exactly what the records own |
| ReplyFree.ReplyReleasesFixedOwned | src/messages.c:581-625 | with the notification case corrected, every reply kind releases exactly the allocations it owns, each as often as owned |
| ReplyFree.DataReleasesInOrder | src/messages.c:582-588 | a data reply releases its sibling chain front to back with lyd_free, then the reply |
| ReplyFree.NotifReplyFreedTwice | src/messages.c:621-625 | as written: a notification reply is released by nc_notif_free and again by free(reply) |
| ReplyFree.ReleaseArray | src/messages.c:603-606 | the loop calls the routine on each element, in order, then frees the array block |
| ReplyFree.ReleaseStrings | src/messages.c:595-602 | lydict_remove on type, tag, severity, app-tag, path, message, message-lang and session-id, in that order; NULL ones record nothing |
| ReplyFree.ReleaseRecord | src/messages.c:595-618 | one record's calls: the eight strings, then attr, elem, ns with lydict_remove and other with lyxml_free, each followed by its block |
| ReplyFree.ReleaseErrors | src/messages.c:594-619 | the calls for records 0 … err_count-1, in order |
| ReplyFree.ReleaseSiblings | src/messages.c:584-587 | the loop unlinks the head before releasing it; every node of the chain is released once, in order; the head ends NULL |
| ReplyFree.NcNotifFree | src/messages.c:628-637 | NULL releases nothing; otherwise lyd_free of the tree, then free of the notification |
| ReplyFree.NcReplyFree | src/messages.c:569-626 | NULL releases nothing; otherwise the calls of ReplyReleases for the reply's value, as written; a data reply's head ends NULL, other kinds keep it, and the sibling chain itself is unchanged |
| ReplyFree.NcReplyFreeFixed | src/messages.c:569-626 | the same destructor with the notification case releasing the notification once; its calls are ReplyReleasesFixed |

## Left out

- Failure of `strdup` and `lyd_dup` is not modelled. The source never checks it, and the model's copies always succeed. Failure of `malloc` is the `mallocOk` parameter.
- ERR and ERRMEM logging are left out. Only the NULL result and its cause (`RpcError`) are modelled.
- `nc_server_rpc_free` (src/messages.c:452-457) is a static helper that no modelled function calls.
- What `lyd_free`, `lyxml_free`, `lydict_remove` and `free` do inside libyang and libc is not modelled. Each call is an event in the release log. The dictionary's reference counting is not modelled.
- `isalpha` is taken as ASCII letters only. Locale-dependent letters are not modelled.
- Requests.NcRpcGetConfig, Requests.NcRpcGet, Requests.NcRpcSubscribe: a NULL filter is not modelled. The source dereferences it before any test.
- Requests.NcRpcEdit, Requests.NcRpcGenericXml, Requests.NcRpcGeneric: the edit content, the XML string and the data node are non-null by type. The source dereferences or stores them without a NULL test.
- Requests.NcRpcGetSchema: the identifier is non-null by type. Under CONST and FREE the source would also store a NULL identifier, and that case is not modelled.
- `NC_DATASTORE` is an unconstrained `int`, carried through unchanged. Edit options are limited to the four table indices; an out-of-range index into the keyword tables is not modelled.
- Data trees and XML fragments are modelled only by their allocation and their text. Their internal structure is not modelled.
- ReplyFree.ReplyReleasesFixedOwned: "exactly what the reply owns" leaves out the `err` record array of an error reply. `nc_reply_free` frees every record's contents but never `error->err` itself (src/messages.c:593-620), which is probably a further leak. Whether that array is a separate allocation, and the record struct layout, are defined in messages_p.h, which is not part of this model, so it is not claimed as a finding.
- The `ctx` dictionary handle passed to `lydict_remove` is not modelled.
- Server-side request objects and the parsing that fills replies and notifications belong to other files and are not part of this model.

## Findings

| source | as written | input that shows it | evidently intended | confidence | as-written member | corrected member |
|---|---|---|---|---|---|---|
| src/messages.c:504-508 | the NC_RPC_COPY case frees only `url_config_src` | `nc_rpc_copy(t, "file:///a", s, NULL, NC_RPC_PARAMTYPE_DUP_AND_FREE)` then `nc_rpc_free`: the strdup of `url_trg` is never freed; with NC_RPC_PARAMTYPE_FREE the caller's `url_trg`, taken over, is never freed either | release `url_trg` as well when `free` is set | high (not executed) | RpcFree.CopyTargetLeaked | RpcFree.ReleaseAllOwned |
| src/messages.c:621-625 | the NC_REPLY_NOTIF case calls `nc_notif_free`, which frees the object, and then `free(reply)` runs | any notification reply passed to `nc_reply_free` | release the notification once (return after `nc_notif_free`, or skip the final free) | high (not executed) | ReplyFree.NotifReplyFreedTwice | ReplyFree.NcReplyFreeFixed |

`RpcFree.ReleaseAllOwned` is the reference `nc_rpc_free` is compared with. It
releases every owned field, and `RpcFree.DupReleasesCopiesOnce` and
`RpcFree.TakeOverReleasesArguments` prove what it releases.
`ReplyFree.ReplyReleasesFixedOwned` proves that the corrected reply destructor
releases each owned allocation exactly once.
