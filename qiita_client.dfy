/**
 * The Qiita draft reconciler: create a private draft, and when creation fails fall
 * back to updating the user's existing private draft with the same title.
 *
 * The HTTP endpoints are an oracle: a `RemoteStore` answers each call with a reply
 * that is a function of the request, and records every call it receives in `trace`.
 */
module QiitaClient {
  import opened Common
  import opened SecurityScanner

  /** The draft submitted to Qiita (`QiitaDraft`; a missing tag list is empty). */
  datatype QiitaDraft = QiitaDraft(id: Option<string>, title: string, body: string, tags: seq<Tag>, private: bool)

  /** An item as `list_user_items`, `create_draft` and `update_draft` return it; any key may be missing. */
  datatype Item = Item(id: Option<string>, title: Option<string>, private: Option<bool>)

  /** One request made to the Qiita API. */
  datatype Call =
    | Create(draft: QiitaDraft)
    | List(perPage: nat, page: nat)
    | Update(itemId: string, draft: QiitaDraft)

  /** Why an upload did not go through: the security gate, or the create call's own error. */
  datatype DraftError = SecurityError(message: string) | RemoteError(cause: string)

  /** The outcome of a reconciliation: what is returned or raised, and the calls made on the way. */
  datatype Outcome = Outcome(result: Result<Item, DraftError>, calls: seq<Call>)

  const DefaultPerPage: nat := 20
  const DefaultPage: nat := 1
  const RejectedPrefix: string := "アップロードが拒否されました: "

  /** The Qiita API, with each endpoint's reply fixed by the request. */
  class RemoteStore {
    const createReply: QiitaDraft -> Result<Item, string>
    const listReply: (nat, nat) -> Result<seq<Item>, string>
    const updateReply: (string, QiitaDraft) -> Result<Item, string>
    var trace: seq<Call>

    constructor(createReply: QiitaDraft -> Result<Item, string>, listReply: (nat, nat) -> Result<seq<Item>, string>,
                updateReply: (string, QiitaDraft) -> Result<Item, string>)
      ensures this.createReply == createReply && this.listReply == listReply && this.updateReply == updateReply
      ensures trace == []
    {
      this.createReply := createReply;
      this.listReply := listReply;
      this.updateReply := updateReply;
      trace := [];
    }

    /** `create_draft`: POST /items. */
    method CreateDraft(draft: QiitaDraft) returns (r: Result<Item, string>)
      modifies this
      ensures r == createReply(draft) && trace == old(trace) + [Create(draft)]
    {
      r := createReply(draft);
      trace := trace + [Create(draft)];
    }

    /** `list_user_items`: GET /authenticated_user/items, one page. */
    method ListUserItems(perPage: nat, page: nat) returns (r: Result<seq<Item>, string>)
      modifies this
      ensures r == listReply(perPage, page) && trace == old(trace) + [List(perPage, page)]
    {
      r := listReply(perPage, page);
      trace := trace + [List(perPage, page)];
    }

    /** `update_draft`: PATCH /items/<id>. */
    method UpdateDraft(itemId: string, draft: QiitaDraft) returns (r: Result<Item, string>)
      modifies this
      ensures r == updateReply(itemId, draft) && trace == old(trace) + [Update(itemId, draft)]
    {
      r := updateReply(itemId, draft);
      trace := trace + [Update(itemId, draft)];
    }
  }

  /** The gate: a critical report blocks the upload unless it is forced. */
  predicate Blocked(report: Option<Report>, forceUpload: bool) {
    report.Some? && !forceUpload && report.value.status == Critical
  }

  /** The private draft both entry points submit. */
  function NewDraft(title: string, body: string, tags: Option<seq<Tag>>): (d: QiitaDraft)
    ensures d.id.None? && d.title == title && d.body == body && d.private
    ensures d.tags == (if tags.Some? then tags.value else [])
  {
    QiitaDraft(None, title, body, tags.GetOr([]), true)
  }

  /** An existing item the fallback may update: same title, and marked private. */
  predicate Reusable(item: Item, title: string) {
    item.title == Some(title) && item.private.GetOr(false)
  }

  /** The index of the first reusable item at or after `i`. */
  function FirstMatchFrom(items: seq<Item>, title: string, i: nat): (k: Option<nat>)
    requires i <= |items|
    ensures k.Some? ==> i <= k.value < |items| && Reusable(items[k.value], title)
    decreases |items| - i
  {
    if i == |items| then None
    else if Reusable(items[i], title) then Some(i)
    else FirstMatchFrom(items, title, i + 1)
  }

  function FirstMatch(items: seq<Item>, title: string): Option<nat> {
    FirstMatchFrom(items, title, 0)
  }

  /** What the fallback does once the listing has come back. */
  function UpdateExisting(store: RemoteStore, items: seq<Item>, draft: QiitaDraft, createError: string): Outcome {
    var tried := [Create(draft), List(DefaultPerPage, DefaultPage)];
    match FirstMatch(items, draft.title)
    case None => Outcome(Err(RemoteError(createError)), tried)
    case Some(k) =>
      match items[k].id
      case None => Outcome(Err(RemoteError(createError)), tried)
      case Some(itemId) =>
        var updated := draft.(id := Some(itemId));
        match store.updateReply(itemId, updated)
        case Ok(item) => Outcome(Ok(item), tried + [Update(itemId, updated)])
        case Err(_) => Outcome(Err(RemoteError(createError)), tried + [Update(itemId, updated)])
  }

  /** The behaviour `find_or_create_draft` is proved against. */
  function Reconcile(store: RemoteStore, title: string, body: string, tags: Option<seq<Tag>>,
                     report: Option<Report>, forceUpload: bool): Outcome
  {
    if Blocked(report, forceUpload) then
      Outcome(Err(SecurityError(RejectedPrefix + report.value.message)), [])
    else
      var draft := NewDraft(title, body, tags);
      match store.createReply(draft)
      case Ok(item) => Outcome(Ok(item), [Create(draft)])
      case Err(e) =>
        match store.listReply(DefaultPerPage, DefaultPage)
        case Err(_) => Outcome(Err(RemoteError(e)), [Create(draft), List(DefaultPerPage, DefaultPage)])
        case Ok(items) => UpdateExisting(store, items, draft, e)
  }

  /** `find_or_create_draft`. */
  method FindOrCreateDraft(store: RemoteStore, title: string, body: string, tags: Option<seq<Tag>>,
                           report: Option<Report>, forceUpload: bool)
    returns (r: Result<Item, DraftError>)
    modifies store
    ensures r == Reconcile(store, title, body, tags, report, forceUpload).result
    ensures store.trace == old(store.trace) + Reconcile(store, title, body, tags, report, forceUpload).calls
  {
    if report.Some? && !forceUpload {
      if report.value.status == Critical {
        return Err(SecurityError(RejectedPrefix + report.value.message));
      }
    }
    var draft := NewDraft(title, body, tags);
    var created := store.CreateDraft(draft);
    if created.Ok? {
      return Ok(created.value);
    }
    var e := created.error;
    var listed := store.ListUserItems(DefaultPerPage, DefaultPage);
    if listed.Err? {
      return Err(RemoteError(e));
    }
    var items := listed.value;
    var i := 0;
    while i < |items|
      invariant 0 <= i <= |items|
      invariant FirstMatch(items, title) == FirstMatchFrom(items, title, i)
      invariant store.trace == old(store.trace) + [Create(draft), List(DefaultPerPage, DefaultPage)]
    {
      if items[i].title == Some(title) && items[i].private.GetOr(false) {
        if items[i].id.None? {
          // `item["id"]` raises KeyError, which the inner handler turns into the create error
          return Err(RemoteError(e));
        }
        var updated := draft.(id := items[i].id);
        var result := store.UpdateDraft(items[i].id.value, updated);
        if result.Err? {
          return Err(RemoteError(e));
        }
        return Ok(result.value);
      }
      i := i + 1;
    }
    r := Err(RemoteError(e));
  }

  /** The call `create_draft_simple` makes. */
  function SimpleCalls(title: string, body: string, tags: Option<seq<Tag>>): seq<Call> {
    [Create(NewDraft(title, body, tags))]
  }

  /** `create_draft_simple`: one create call, no gate and no fallback. */
  method CreateDraftSimple(store: RemoteStore, title: string, body: string, tags: Option<seq<Tag>>)
    returns (r: Result<Item, DraftError>)
    modifies store
    ensures store.trace == old(store.trace) + SimpleCalls(title, body, tags)
    ensures r == match store.createReply(NewDraft(title, body, tags))
                 case Ok(item) => Ok(item)
                 case Err(e) => Err(RemoteError(e))
  {
    var created := store.CreateDraft(NewDraft(title, body, tags));
    if created.Err? {
      return Err(RemoteError(created.error));
    }
    r := Ok(created.value);
  }

  // ---------------------------------------------------------------------------
  // properties of the reconciler

  /** `FirstMatch` finds the first reusable item, and finds nothing only when there is none. */
  lemma {:induction false} FirstMatchFromIsFirst(items: seq<Item>, title: string, i: nat)
    requires i <= |items|
    ensures FirstMatchFrom(items, title, i).None? <==> forall j :: i <= j < |items| ==> !Reusable(items[j], title)
    ensures FirstMatchFrom(items, title, i).Some? ==>
      forall j :: i <= j < FirstMatchFrom(items, title, i).value ==> !Reusable(items[j], title)
    decreases |items| - i
  {
    if i < |items| && !Reusable(items[i], title) {
      FirstMatchFromIsFirst(items, title, i + 1);
    }
  }

  lemma FirstMatchIsFirst(items: seq<Item>, title: string)
    ensures FirstMatch(items, title).None? <==> forall j :: 0 <= j < |items| ==> !Reusable(items[j], title)
    ensures FirstMatch(items, title).Some? ==>
      && Reusable(items[FirstMatch(items, title).value], title)
      && forall j :: 0 <= j < FirstMatch(items, title).value ==> !Reusable(items[j], title)
  {
    FirstMatchFromIsFirst(items, title, 0);
  }

  /** A blocked upload raises `SecurityError` and makes no call at all. */
  lemma BlockedMakesNoCalls(store: RemoteStore, title: string, body: string, tags: Option<seq<Tag>>,
                            report: Option<Report>, forceUpload: bool)
    requires Blocked(report, forceUpload)
    ensures Reconcile(store, title, body, tags, report, forceUpload).calls == []
    ensures Reconcile(store, title, body, tags, report, forceUpload).result.Err?
    ensures Reconcile(store, title, body, tags, report, forceUpload).result.error.SecurityError?
  {
  }

  /** Without a blocking report the first call is always a create of the private draft. */
  lemma {:induction false} UnblockedCreatesFirst(store: RemoteStore, title: string, body: string, tags: Option<seq<Tag>>,
                                                  report: Option<Report>, forceUpload: bool)
    requires !Blocked(report, forceUpload)
    ensures |Reconcile(store, title, body, tags, report, forceUpload).calls| >= 1
    ensures Reconcile(store, title, body, tags, report, forceUpload).calls[0] == Create(NewDraft(title, body, tags))
  {
  }

  /** A successful create is returned as is, and neither list nor update is called. */
  lemma CreateSuccessIsFinal(store: RemoteStore, title: string, body: string, tags: Option<seq<Tag>>,
                             report: Option<Report>, forceUpload: bool)
    requires !Blocked(report, forceUpload)
    requires store.createReply(NewDraft(title, body, tags)).Ok?
    ensures Reconcile(store, title, body, tags, report, forceUpload).calls == [Create(NewDraft(title, body, tags))]
    ensures Reconcile(store, title, body, tags, report, forceUpload).result
      == Ok(store.createReply(NewDraft(title, body, tags)).value)
  {
  }

  /** Every call is for a private draft with the given title, body and tags, and any listing is page 1 of 20. */
  lemma {:induction false} CallsArePrivateSinglePage(store: RemoteStore, title: string, body: string, tags: Option<seq<Tag>>,
                                                      report: Option<Report>, forceUpload: bool)
    ensures forall c :: c in Reconcile(store, title, body, tags, report, forceUpload).calls ==>
      match c
      case Create(d) => d == NewDraft(title, body, tags)
      case List(perPage, page) => perPage == 20 && page == 1
      case Update(_, d) => d.private && d.title == title && d.body == body && d.tags == NewDraft(title, body, tags).tags
    ensures |Reconcile(store, title, body, tags, report, forceUpload).calls| <= 3
  {
  }

  /**
   * Whatever goes wrong after the gate, the error that surfaces is the create call's
   * own: a failed listing, no match, a match without an id and a failed update all
   * re-raise it.
   */
  lemma {:induction false} FailureRaisesCreateError(store: RemoteStore, title: string, body: string, tags: Option<seq<Tag>>,
                                                     report: Option<Report>, forceUpload: bool)
    requires !Blocked(report, forceUpload)
    requires Reconcile(store, title, body, tags, report, forceUpload).result.Err?
    ensures store.createReply(NewDraft(title, body, tags)).Err?
    ensures Reconcile(store, title, body, tags, report, forceUpload).result.error
      == RemoteError(store.createReply(NewDraft(title, body, tags)).error)
  {
  }

  /**
   * An update happens only after a failed create, and it targets the first reusable
   * item of the single listed page, under that item's id; its reply is what is
   * returned when it succeeds.
   */
  lemma {:induction false} UpdateTargetsFirstMatch(store: RemoteStore, title: string, body: string, tags: Option<seq<Tag>>,
                                                    report: Option<Report>, forceUpload: bool, itemId: string, d: QiitaDraft)
    requires Update(itemId, d) in Reconcile(store, title, body, tags, report, forceUpload).calls
    ensures store.createReply(NewDraft(title, body, tags)).Err?
    ensures store.listReply(20, 1).Ok?
    ensures exists k ::
              && 0 <= k < |store.listReply(20, 1).value|
              && Reusable(store.listReply(20, 1).value[k], title)
              && store.listReply(20, 1).value[k].id == Some(itemId)
              && (forall j :: 0 <= j < k ==> !Reusable(store.listReply(20, 1).value[j], title))
    ensures d == NewDraft(title, body, tags).(id := Some(itemId))
    ensures Reconcile(store, title, body, tags, report, forceUpload).calls
      == [Create(NewDraft(title, body, tags)), List(20, 1), Update(itemId, d)]
    ensures store.updateReply(itemId, d).Ok? ==>
      Reconcile(store, title, body, tags, report, forceUpload).result == Ok(store.updateReply(itemId, d).value)
  {
    var draft := NewDraft(title, body, tags);
    var items := store.listReply(20, 1).value;
    FirstMatchIsFirst(items, draft.title);
    var k := FirstMatch(items, draft.title).value;
    assert items[k].id == Some(itemId);
  }

  /** When the create fails and the page has no reusable item, nothing is updated. */
  lemma {:induction false} NoMatchNoUpdate(store: RemoteStore, title: string, body: string, tags: Option<seq<Tag>>,
                                            report: Option<Report>, forceUpload: bool)
    requires !Blocked(report, forceUpload)
    requires store.createReply(NewDraft(title, body, tags)).Err?
    requires store.listReply(20, 1).Ok?
    requires forall j :: 0 <= j < |store.listReply(20, 1).value| ==> !Reusable(store.listReply(20, 1).value[j], title)
    ensures Reconcile(store, title, body, tags, report, forceUpload).calls
      == [Create(NewDraft(title, body, tags)), List(20, 1)]
    ensures Reconcile(store, title, body, tags, report, forceUpload).result
      == Err(RemoteError(store.createReply(NewDraft(title, body, tags)).error))
  {
    FirstMatchIsFirst(store.listReply(20, 1).value, title);
  }

  /**
   * The converse of `UpdateTargetsFirstMatch`: when the create fails and the listed
   * page has a first reusable item with an id, that item is updated exactly once with
   * the draft under its id, and the update's reply is returned; a failed update
   * re-raises the create error.
   */
  lemma {:induction false} MatchUpdates(store: RemoteStore, title: string, body: string, tags: Option<seq<Tag>>,
                                         report: Option<Report>, forceUpload: bool, k: nat, itemId: string)
    requires !Blocked(report, forceUpload)
    requires store.createReply(NewDraft(title, body, tags)).Err?
    requires store.listReply(20, 1).Ok?
    requires FirstMatch(store.listReply(20, 1).value, title) == Some(k)
    requires store.listReply(20, 1).value[k].id == Some(itemId)
    ensures Reconcile(store, title, body, tags, report, forceUpload).calls
      == [Create(NewDraft(title, body, tags)), List(20, 1),
          Update(itemId, NewDraft(title, body, tags).(id := Some(itemId)))]
    ensures Reconcile(store, title, body, tags, report, forceUpload).result
      == match store.updateReply(itemId, NewDraft(title, body, tags).(id := Some(itemId)))
         case Ok(item) => Ok(item)
         case Err(_) => Err(RemoteError(store.createReply(NewDraft(title, body, tags)).error))
  {
    var draft := NewDraft(title, body, tags);
    assert draft.title == title;
    assert UpdateExisting(store, store.listReply(20, 1).value, draft, store.createReply(draft).error)
      == Reconcile(store, title, body, tags, report, forceUpload);
  }

  /** A first reusable item without an id is not updated: the create error is raised after the listing. */
  lemma {:induction false} MatchWithoutIdNoUpdate(store: RemoteStore, title: string, body: string, tags: Option<seq<Tag>>,
                                                   report: Option<Report>, forceUpload: bool, k: nat)
    requires !Blocked(report, forceUpload)
    requires store.createReply(NewDraft(title, body, tags)).Err?
    requires store.listReply(20, 1).Ok?
    requires FirstMatch(store.listReply(20, 1).value, title) == Some(k)
    requires store.listReply(20, 1).value[k].id.None?
    ensures Reconcile(store, title, body, tags, report, forceUpload).calls
      == [Create(NewDraft(title, body, tags)), List(20, 1)]
    ensures Reconcile(store, title, body, tags, report, forceUpload).result
      == Err(RemoteError(store.createReply(NewDraft(title, body, tags)).error))
  {
    var draft := NewDraft(title, body, tags);
    assert draft.title == title;
    assert UpdateExisting(store, store.listReply(20, 1).value, draft, store.createReply(draft).error)
      == Reconcile(store, title, body, tags, report, forceUpload);
  }
}
