/**
 * The chat API routes (web/routes/chat.py): sending a message, streaming
 * the agent's events, listing, deleting and renaming sessions, and the
 * Ollama preflight check. `app.config["sessions"]` is the server's table of
 * in-memory sessions; the session store is present only when sessions persist.
 */
module ChatRoutes {
  import opened Wrappers
  import opened Text
  import opened JsonValues
  import SessionStore
  import Models

  /** What the routes read of a `SessionState`. */
  datatype Live = Live(isRunning: bool, title: Option<string>, createdAt: string, updatedAt: string, messageCount: nat)

  /** A route's JSON answer: an error with its HTTP status, or success. */
  datatype Reply = Rejected(code: int, error: string) | Accepted(sessionId: string, status: string)

  predicate Given(s: Option<string>) {
    s.Some? && s.value != []
  }

  /** `ids` with `id` added at the end unless present: where a dict assignment puts a key. */
  function Inserted(ids: seq<string>, id: string): (r: seq<string>)
    ensures id in ids ==> r == ids
    ensures id !in ids ==> r == ids + [id]
  {
    if id in ids then ids else ids + [id]
  }

  /** `ids` without `id`: where `del` leaves the other keys. */
  function Removed(ids: seq<string>, id: string): (r: seq<string>)
    ensures forall k :: k in r <==> k in ids && k != id
  {
    if ids == [] then []
    else (if ids[0] == id then [] else [ids[0]]) + Removed(ids[1..], id)
  }

  predicate DistinctIds(ks: seq<string>) {
    forall i, j :: 0 <= i < j < |ks| ==> ks[i] != ks[j]
  }

  /** Removing a key from a list without repeats leaves a list without repeats. */
  lemma {:induction false} RemovedDistinct(ids: seq<string>, id: string)
    requires DistinctIds(ids)
    ensures DistinctIds(Removed(ids, id))
  {
    if ids != [] {
      var tail := ids[1..];
      assert DistinctIds(tail) by {
        forall i, j | 0 <= i < j < |tail|
          ensures tail[i] != tail[j]
        {
          assert tail[i] == ids[i + 1] && tail[j] == ids[j + 1];
        }
      }
      RemovedDistinct(tail, id);
      var rest := Removed(tail, id);
      assert ids[0] !in tail by {
        forall j | 0 <= j < |tail|
          ensures tail[j] != ids[0]
        {
          assert tail[j] == ids[j + 1];
        }
      }
      var head := if ids[0] == id then [] else [ids[0]];
      var r := head + rest;
      forall i, j | 0 <= i < j < |r|
        ensures r[i] != r[j]
      {
        if i < |head| {
          assert r[j] == rest[j - |head|];
          assert rest[j - |head|] in rest;
        } else {
          assert r[i] == rest[i - |head|] && r[j] == rest[j - |head|];
        }
      }
    }
  }

  /** The invariant of the session table: its key order lists every key once. */
  predicate Table(ids: seq<string>, sessions: map<string, Live>) {
    DistinctIds(ids) && (forall i :: 0 <= i < |ids| ==> ids[i] in sessions) && (forall k :: k in sessions ==> k in ids)
  }

  // ===========================================================================
  // Sending a message

  /** A route's effect on the session table. */
  datatype Outcome = Outcome(reply: Reply, ids: seq<string>, sessions: map<string, Live>)

  /**
   * `send_message`. `preflight` is what `_preflight_ollama` answers,
   * `uuidHex` the generated uuid, `created` the `SessionState` a new session
   * would get, `hasStore` whether sessions persist and `stored` whether the
   * store holds the requested id.
   */
  function Send(message: string, sessionId: Option<string>, preflight: (bool, string), uuidHex: string, created: Live,
                ids: seq<string>, sessions: map<string, Live>, hasStore: bool, stored: bool): (o: Outcome)
    requires |uuidHex| >= 12 && Table(ids, sessions)
    ensures Table(o.ids, o.sessions)
  {
    if IsBlank(message) then Outcome(Rejected(400, "No message provided"), ids, sessions)
    else if Given(sessionId) && sessionId.value in sessions then
      var id := sessionId.value;
      if sessions[id].isRunning then Outcome(Rejected(409, "Agent is already processing"), ids, sessions)
      else Outcome(Accepted(id, "processing"), ids, sessions[id := sessions[id].(isRunning := true)])
    else if !preflight.0 then Outcome(Rejected(503, preflight.1), ids, sessions)
    else if Given(sessionId) && hasStore && !stored then Outcome(Rejected(404, "Session not found"), ids, sessions)
    else
      var id := if Given(sessionId) && hasStore then sessionId.value else uuidHex[..12];
      var ids' := Inserted(ids, id);
      assert DistinctIds(ids') by {
        if id !in ids {
          forall i, j | 0 <= i < j < |ids'|
            ensures ids'[i] != ids'[j]
          {
            if j == |ids| {
              assert ids'[i] == ids[i];
            }
          }
        }
      }
      Outcome(Accepted(id, "processing"), ids', sessions[id := created.(isRunning := true)])
  }

  /** What each answer of `send_message` means, and what it does to the session table. */
  lemma SendOutcomes(message: string, sessionId: Option<string>, preflight: (bool, string), uuidHex: string, created: Live,
                     ids: seq<string>, sessions: map<string, Live>, hasStore: bool, stored: bool)
    requires |uuidHex| >= 12 && Table(ids, sessions)
    ensures var o := Send(message, sessionId, preflight, uuidHex, created, ids, sessions, hasStore, stored);
      o.reply.Rejected? ==> o.ids == ids && o.sessions == sessions
    ensures IsBlank(message) ==>
      Send(message, sessionId, preflight, uuidHex, created, ids, sessions, hasStore, stored).reply
      == Rejected(400, "No message provided")
    ensures var o := Send(message, sessionId, preflight, uuidHex, created, ids, sessions, hasStore, stored);
      o.reply == Rejected(409, "Agent is already processing") <==>
      !IsBlank(message) && Given(sessionId) && sessionId.value in sessions && sessions[sessionId.value].isRunning
    ensures var o := Send(message, sessionId, preflight, uuidHex, created, ids, sessions, hasStore, stored);
      o.reply == Rejected(503, preflight.1) <==>
      !IsBlank(message) && !(Given(sessionId) && sessionId.value in sessions) && !preflight.0
    ensures var o := Send(message, sessionId, preflight, uuidHex, created, ids, sessions, hasStore, stored);
      o.reply == Rejected(404, "Session not found") <==>
      !IsBlank(message) && !(Given(sessionId) && sessionId.value in sessions) && preflight.0
      && Given(sessionId) && hasStore && !stored
    ensures var o := Send(message, sessionId, preflight, uuidHex, created, ids, sessions, hasStore, stored);
      o.reply.Accepted? ==>
      var id := o.reply.sessionId;
      o.reply.status == "processing" && id != []
      && id in o.sessions && o.sessions[id].isRunning
      && (Given(sessionId) && id == sessionId.value && id in sessions ==> !sessions[id].isRunning)
      && (forall k :: k in o.sessions && k != id ==> k in sessions && o.sessions[k] == sessions[k])
      && (forall k :: k in sessions && k != id ==> k in o.sessions)
      && (Given(sessionId) && (sessionId.value in sessions || hasStore) ==> id == sessionId.value)
      && (!(Given(sessionId) && (sessionId.value in sessions || hasStore)) ==> id == uuidHex[..12])
  {
  }

  /** A session that accepted a message turns the next one away until its run ends. */
  lemma SendWhileRunning(message: string, sessionId: Option<string>, preflight: (bool, string), uuidHex: string,
                         created: Live, ids: seq<string>, sessions: map<string, Live>, hasStore: bool, stored: bool,
                         next: string, preflight2: (bool, string), uuidHex2: string, stored2: bool)
    requires |uuidHex| >= 12 && |uuidHex2| >= 12 && Table(ids, sessions)
    requires Send(message, sessionId, preflight, uuidHex, created, ids, sessions, hasStore, stored).reply.Accepted?
    requires !IsBlank(next)
    ensures var o := Send(message, sessionId, preflight, uuidHex, created, ids, sessions, hasStore, stored);
      Send(next, Some(o.reply.sessionId), preflight2, uuidHex2, created, o.ids, o.sessions, hasStore, stored2).reply
      == Rejected(409, "Agent is already processing")
  {
  }

  // ===========================================================================
  // Listing

  /** One entry of the `list_sessions` answer. */
  datatype Listed = Listed(sessionId: string, title: Option<string>, createdAt: Option<string>, updatedAt: Option<string>,
                           messageCount: nat, isRunning: bool, persisted: bool, model: Option<string>)

  /** A row of `SessionStore.list_sessions()`. */
  datatype Summary = Summary(sessionId: string, title: Option<string>, createdAt: string, updatedAt: string,
                             messageCount: nat, model: Option<string>)

  function LiveEntry(id: string, s: Live): Listed {
    Listed(id, s.title, Some(s.createdAt), Some(s.updatedAt), s.messageCount, s.isRunning, false, None)
  }

  function PersistedEntry(s: Summary): Listed {
    Listed(s.sessionId, s.title, Some(s.createdAt), Some(s.updatedAt), s.messageCount, false, true, s.model)
  }

  /** The first loop of `list_sessions`: every in-memory session, in table order. */
  function LiveListing(ids: seq<string>, sessions: map<string, Live>): (r: seq<Listed>)
    requires forall i :: 0 <= i < |ids| ==> ids[i] in sessions
    ensures |r| == |ids| && forall i :: 0 <= i < |ids| ==> r[i] == LiveEntry(ids[i], sessions[ids[i]])
  {
    if ids == [] then [] else LiveListing(ids[..|ids| - 1], sessions) + [LiveEntry(ids[|ids| - 1], sessions[ids[|ids| - 1]])]
  }

  /** The second loop: persisted sessions not already listed, in the store's order. */
  function PersistedListing(active: seq<string>, persisted: seq<Summary>): (r: seq<Listed>)
    ensures |r| <= |persisted|
    ensures forall i :: 0 <= i < |r| ==> r[i].persisted && r[i].sessionId !in active
  {
    if persisted == [] then []
    else
      var s := persisted[|persisted| - 1];
      PersistedListing(active, persisted[..|persisted| - 1]) + (if s.sessionId in active then [] else [PersistedEntry(s)])
  }

  /** A persisted session is listed from the store iff no in-memory session has its id. */
  lemma {:induction false} PersistedListingIff(active: seq<string>, persisted: seq<Summary>, s: Summary)
    requires s in persisted
    ensures PersistedEntry(s) in PersistedListing(active, persisted) <==> s.sessionId !in active
  {
    var last := persisted[|persisted| - 1];
    var init := persisted[..|persisted| - 1];
    assert persisted == init + [last];
    if s in init {
      PersistedListingIff(active, init, s);
    }
  }

  predicate DistinctSummaries(p: seq<Summary>) {
    forall i, j :: 0 <= i < j < |p| ==> p[i].sessionId != p[j].sessionId
  }

  predicate DistinctListing(r: seq<Listed>) {
    forall i, j :: 0 <= i < j < |r| ==> r[i].sessionId != r[j].sessionId
  }

  /** Each entry of the store's part of the listing comes from one of its rows, and none repeats. */
  lemma {:induction false} PersistedListingDistinct(active: seq<string>, persisted: seq<Summary>)
    requires DistinctSummaries(persisted)
    ensures DistinctListing(PersistedListing(active, persisted))
    ensures forall i :: 0 <= i < |PersistedListing(active, persisted)| ==>
      exists k :: 0 <= k < |persisted| && PersistedListing(active, persisted)[i] == PersistedEntry(persisted[k])
  {
    if persisted != [] {
      var init := persisted[..|persisted| - 1];
      var last := persisted[|persisted| - 1];
      assert DistinctSummaries(init) by {
        forall i, j | 0 <= i < j < |init|
          ensures init[i].sessionId != init[j].sessionId
        {
          assert init[i] == persisted[i] && init[j] == persisted[j];
        }
      }
      PersistedListingDistinct(active, init);
      var a := PersistedListing(active, init);
      var r := PersistedListing(active, persisted);
      assert r == a + (if last.sessionId in active then [] else [PersistedEntry(last)]);
      forall i | 0 <= i < |r|
        ensures exists k :: 0 <= k < |persisted| && r[i] == PersistedEntry(persisted[k])
      {
        if i < |a| {
          var k :| 0 <= k < |init| && a[i] == PersistedEntry(init[k]);
          assert r[i] == PersistedEntry(persisted[k]);
        } else {
          assert r[i] == PersistedEntry(persisted[|persisted| - 1]);
        }
      }
      forall i, j | 0 <= i < j < |r|
        ensures r[i].sessionId != r[j].sessionId
      {
        if j < |a| {
          assert r[i] == a[i] && r[j] == a[j];
        } else {
          var k :| 0 <= k < |init| && a[i] == PersistedEntry(init[k]);
          assert r[i].sessionId == persisted[k].sessionId;
          assert r[j].sessionId == persisted[|persisted| - 1].sessionId;
        }
      }
    }
  }

  /** The whole listing names each session once when the store names each of its rows once. */
  lemma ListingDistinct(ids: seq<string>, sessions: map<string, Live>, persisted: seq<Summary>)
    requires Table(ids, sessions) && DistinctSummaries(persisted)
    ensures DistinctListing(LiveListing(ids, sessions) + PersistedListing(ids, persisted))
  {
    var a := LiveListing(ids, sessions);
    var b := PersistedListing(ids, persisted);
    PersistedListingDistinct(ids, persisted);
    var r := a + b;
    forall i, j | 0 <= i < j < |r|
      ensures r[i].sessionId != r[j].sessionId
    {
      if j < |a| {
        assert r[i].sessionId == ids[i] && r[j].sessionId == ids[j];
      } else if i < |a| {
        assert r[i].sessionId == ids[i];
        assert r[j] == b[j - |a|];
      } else {
        assert r[i] == b[i - |a|] && r[j] == b[j - |a|];
      }
    }
  }

  // ===========================================================================
  // The stream generator

  /** One `stream_queue.get(timeout=30)`: an event, or a timeout seen with the session's running flag. */
  datatype Poll = Got(event: Dict) | TimedOut(sessionRunning: bool)

  /** What the generator yields: the event itself or a keepalive. */
  datatype Emitted = EventOut(event: Dict) | Keepalive

  predicate IsFinal(event: Dict) {
    Get(event, "type") == Some(JStr("done")) || Get(event, "type") == Some(JStr("error"))
  }

  /** The loop stops after this poll. */
  predicate Stops(p: Poll) {
    match p
    case Got(e) => IsFinal(e)
    case TimedOut(running) => !running
  }

  function EmittedFor(p: Poll): Emitted {
    match p
    case Got(e) => EventOut(e)
    case TimedOut(_) => Keepalive
  }

  /** The first poll after which the generator stops, if any. */
  function FirstStop(polls: seq<Poll>, from: nat): (r: Option<nat>)
    requires from <= |polls|
    ensures r.Some? ==> from <= r.value < |polls| && Stops(polls[r.value])
                        && forall i :: from <= i < r.value ==> !Stops(polls[i])
    ensures r.None? ==> forall i :: from <= i < |polls| ==> !Stops(polls[i])
    decreases |polls| - from
  {
    if from == |polls| then None
    else if Stops(polls[from]) then Some(from)
    else FirstStop(polls, from + 1)
  }

  /**
   * `generate()` of `stream_response` over the polls it makes. It yields one
   * item per poll and ends right after the first final event, or the first
   * keepalive seen while the session is not running.
   */
  method Generate(polls: seq<Poll>) returns (out: seq<Emitted>, ended: bool)
    ensures ended <==> FirstStop(polls, 0).Some?
    ensures var n := if ended then FirstStop(polls, 0).value + 1 else |polls|;
      |out| == n && forall i :: 0 <= i < n ==> out[i] == EmittedFor(polls[i])
  {
    out := [];
    ended := false;
    var i := 0;
    while i < |polls| && !ended
      invariant 0 <= i <= |polls| && |out| == i
      invariant forall k :: 0 <= k < i ==> out[k] == EmittedFor(polls[k])
      invariant FirstStop(polls, 0) == (if ended then Some(i - 1) else FirstStop(polls, i))
    {
      var p := polls[i];
      match p {
        case Got(e) =>
          out := out + [EventOut(e)];
          if IsFinal(e) {
            ended := true;
          }
        case TimedOut(running) =>
          out := out + [Keepalive];
          if !running {
            ended := true;
          }
      }
      i := i + 1;
    }
  }

  // ===========================================================================
  // The Ollama preflight

  /** `base_url_map` of `_preflight_ollama`: base URLs in insertion order, each with its model names. */
  type UrlMap = seq<(string, seq<string>)>

  predicate DistinctUrls(m: UrlMap) {
    forall i, j :: 0 <= i < j < |m| ==> m[i].0 != m[j].0
  }

  predicate UrlMapWellFormed(m: UrlMap) {
    DistinctUrls(m)
    && forall i :: 0 <= i < |m| ==> forall a, b :: 0 <= a < b < |m[i].1| ==> m[i].1[a] != m[i].1[b]
  }

  predicate HasUrl(m: UrlMap, baseUrl: string) {
    exists i :: 0 <= i < |m| && m[i].0 == baseUrl
  }

  /** The position of a base URL among the keys of `base_url_map`. */
  function UrlIndex(m: UrlMap, baseUrl: string): (r: Option<nat>)
    ensures r.Some? ==> r.value < |m| && m[r.value].0 == baseUrl
    ensures r.None? <==> !HasUrl(m, baseUrl)
  {
    if m == [] then None
    else if m[|m| - 1].0 == baseUrl then Some(|m| - 1)
    else
      UrlIndex(m[..|m| - 1], baseUrl)
  }

  /** `_add_model(base_url, model_name)`: `setdefault` the URL's list and append the name once. */
  function AddModel(m: UrlMap, baseUrl: string, model: string): (r: UrlMap)
    requires DistinctUrls(m)
    ensures DistinctUrls(r)
    ensures !HasUrl(m, baseUrl) ==> r == m + [(baseUrl, [model])]
    ensures HasUrl(m, baseUrl) ==> |r| == |m|
    ensures forall i :: 0 <= i < |m| ==>
      r[i] == if m[i].0 != baseUrl then m[i] else (baseUrl, if model in m[i].1 then m[i].1 else m[i].1 + [model])
  {
    match UrlIndex(m, baseUrl)
    case None =>
      var r := m + [(baseUrl, [model])];
      assert DistinctUrls(r) by {
        forall i, j | 0 <= i < j < |r|
          ensures r[i].0 != r[j].0
        {
          if j == |m| {
            assert r[i] == m[i];
          }
        }
      }
      r
    case Some(k) =>
      assert forall i :: 0 <= i < |m| && i != k ==> m[i].0 != baseUrl;
      m[k := (baseUrl, if model in m[k].1 then m[k].1 else m[k].1 + [model])]
  }

  /** Grouping keeps each URL once and each model once under its URL, and files the model under its URL. */
  lemma {:induction false} AddModelKeepsShape(m: UrlMap, baseUrl: string, model: string)
    requires UrlMapWellFormed(m)
    ensures var r := AddModel(m, baseUrl, model);
      UrlMapWellFormed(r) && exists i :: 0 <= i < |r| && r[i].0 == baseUrl && model in r[i].1
  {
    var r := AddModel(m, baseUrl, model);
    if HasUrl(m, baseUrl) {
      var i :| 0 <= i < |m| && m[i].0 == baseUrl;
      assert r[i].0 == baseUrl && model in r[i].1;
      forall k | 0 <= k < |r|
        ensures forall a, b :: 0 <= a < b < |r[k].1| ==> r[k].1[a] != r[k].1[b]
      {
        if m[k].0 == baseUrl && model !in m[k].1 {
          forall a, b | 0 <= a < b < |r[k].1|
            ensures r[k].1[a] != r[k].1[b]
          {
            if b < |m[k].1| {
              assert r[k].1[a] == m[k].1[a] && r[k].1[b] == m[k].1[b];
            } else {
              assert r[k].1[a] == m[k].1[a];
            }
          }
        }
      }
    } else {
      assert r[|m|].0 == baseUrl && model in r[|m|].1;
      forall i, j | 0 <= i < j < |r|
        ensures r[i].0 != r[j].0
      {
        if j == |m| {
          assert r[i] == m[i];
        }
      }
    }
  }

  /** What a preflight check of one base URL found. */
  function CheckUrl(baseUrl: string, required: seq<string>, healthCheck: bool, healthy: string -> bool,
                    listing: string -> Result<seq<string>>): (r: Option<string>)
    ensures healthCheck && !healthy(baseUrl) ==> r == Some("Cannot connect to Ollama at " + baseUrl + ". Is ollama running?")
    ensures !(healthCheck && !healthy(baseUrl)) && listing(baseUrl).Failure? ==> r == Some(listing(baseUrl).error)
    ensures !(healthCheck && !healthy(baseUrl)) && listing(baseUrl).Success? ==>
      (r.None? <==> forall x :: x in required && x != [] ==> Models.ModelAvailable(x, Models.NonEmptyNames(listing(baseUrl).value)))
  {
    if healthCheck && !healthy(baseUrl) then Some("Cannot connect to Ollama at " + baseUrl + ". Is ollama running?")
    else match listing(baseUrl)
      case Failure(e) => Some(e)
      case Success(names) =>
        var missing := Models.MissingModels(required, names);
        MissingNoneIff(required, names);
        if missing != [] then Some("Missing models at " + baseUrl + ": " + Join(missing, ", ") + ". Pull with: ollama pull <model>")
        else None
  }

  lemma MissingNoneIff(required: seq<string>, names: seq<string>)
    ensures Models.MissingModels(required, names) == [] <==>
      forall x :: x in required && x != [] ==> Models.ModelAvailable(x, Models.NonEmptyNames(names))
  {
    var missing := Models.MissingModels(required, names);
    if missing != [] {
      Models.MissingModelsIff(required, names, missing[0]);
    } else {
      forall x | x in required && x != []
        ensures Models.ModelAvailable(x, Models.NonEmptyNames(names))
      {
        Models.MissingModelsIff(required, names, x);
      }
    }
  }

  /** The first URL, in map order, whose check fails. */
  function PreflightFrom(m: UrlMap, healthCheck: bool, healthy: string -> bool, listing: string -> Result<seq<string>>): Option<string>
  {
    if m == [] then None
    else match CheckUrl(m[0].0, m[0].1, healthCheck, healthy, listing)
      case Some(e) => Some(e)
      case None => PreflightFrom(m[1..], healthCheck, healthy, listing)
  }

  /** The preflight passes iff every URL's check passes. */
  lemma {:induction false} PreflightPassesIff(m: UrlMap, healthCheck: bool, healthy: string -> bool,
                                              listing: string -> Result<seq<string>>)
    ensures PreflightFrom(m, healthCheck, healthy, listing).None? <==>
      forall i :: 0 <= i < |m| ==> CheckUrl(m[i].0, m[i].1, healthCheck, healthy, listing).None?
  {
    if m != [] {
      PreflightPassesIff(m[1..], healthCheck, healthy, listing);
      assert forall i :: 1 <= i < |m| ==> m[i] == m[1..][i - 1];
    }
  }

  /** The check loop of `_preflight_ollama`, stopping at the first failing URL. */
  method CheckAll(m: UrlMap, healthCheck: bool, healthy: string -> bool, listing: string -> Result<seq<string>>)
    returns (ok: bool, error: string)
    ensures var r := PreflightFrom(m, healthCheck, healthy, listing);
      ok == r.None? && (r.Some? ==> error == r.value) && (r.None? ==> error == "")
  {
    ok := true;
    error := "";
    var i := 0;
    while i < |m| && ok
      invariant 0 <= i <= |m|
      invariant ok ==> PreflightFrom(m[i..], healthCheck, healthy, listing) == PreflightFrom(m, healthCheck, healthy, listing)
      invariant ok ==> error == ""
      invariant !ok ==> PreflightFrom(m, healthCheck, healthy, listing) == Some(error)
    {
      assert m[i..][0] == m[i] && m[i..][1..] == m[i + 1..];
      var failure := CheckUrl(m[i].0, m[i].1, healthCheck, healthy, listing);
      if failure.Some? {
        ok := false;
        error := failure.value;
      }
      i := i + 1;
    }
    if ok {
      assert m[i..] == [];
    }
  }

  /**
   * `_preflight_ollama`: the chat and utility models grouped by base URL, then
   * each URL checked in turn. `healthy` and `listing` are the answers of
   * `health_check` and `list_models` (names of the listed models).
   */
  method Preflight(chatUrl: string, chatModel: string, utilityUrl: string, utilityModel: string, healthCheck: bool,
                   healthy: string -> bool, listing: string -> Result<seq<string>>) returns (ok: bool, error: string)
    ensures var r := PreflightFrom(AddModel(AddModel([], chatUrl, chatModel), utilityUrl, utilityModel), healthCheck, healthy, listing);
      ok == r.None? && (r.Some? ==> error == r.value)
  {
    var m := AddModel([], chatUrl, chatModel);
    m := AddModel(m, utilityUrl, utilityModel);
    ok, error := CheckAll(m, healthCheck, healthy, listing);
  }

  /** A chat and a utility model on one URL are checked together, and the same model is listed once. */
  lemma SameUrlGrouped(url: string, chat: string, utility: string)
    ensures AddModel(AddModel([], url, chat), url, utility) == [(url, if chat == utility then [chat] else [chat, utility])]
  {
    var m := AddModel([], url, chat);
    assert m == [(url, [chat])];
    assert HasUrl(m, url) by { assert m[0].0 == url; }
    var r := AddModel(m, url, utility);
    assert r[0] == (url, if utility in m[0].1 then m[0].1 else m[0].1 + [utility]);
    assert [chat] + [utility] == [chat, utility];
    assert utility in [chat] <==> chat == utility;
  }

  // ===========================================================================
  // The server

  class Server {
    const store: SessionStore.Store?   // `_get_session_store`: present iff `session.persist`
    var ids: seq<string>               // the keys of `app.config["sessions"]`, in insertion order
    var sessions: map<string, Live>

    predicate Valid()
      reads this, store
    {
      Table(ids, sessions) && (store != null ==> store.Valid())
    }

    constructor(store: SessionStore.Store?)
      requires store != null ==> store.Valid()
      ensures Valid() && this.store == store && ids == [] && sessions == map[]
    {
      this.store := store;
      ids := [];
      sessions := map[];
    }

    /**
     * `send_message`, with the arguments of `Send`. A session it opens builds a
     * `SessionState`, whose `AgentContext` runs `ensure_session(id, model)` on
     * the store when sessions persist (`now` is that call's clock).
     */
    method SendMessage(message: string, sessionId: Option<string>, preflight: (bool, string), uuidHex: string,
                       created: Live, model: Option<string>, now: string) returns (r: Reply)
      requires Valid() && |uuidHex| >= 12
      modifies this, store
      ensures Valid()
      ensures var o := Send(message, sessionId, preflight, uuidHex, created, old(ids), old(sessions), store != null,
                            store != null && Given(sessionId) && sessionId.value in old(store.sessions));
        r == o.reply && ids == o.ids && sessions == o.sessions
      ensures store != null && r.Accepted? && !(Given(sessionId) && sessionId.value in old(sessions)) ==>
        var before := old(store.sessions);
        SessionStore.Pruned(before[r.sessionId := SessionStore.Ensured(if r.sessionId in before then Some(before[r.sessionId]) else None,
                                                                       model, now)],
                            store.sessions, store.maxSessions)
        && store.messages == SessionStore.MessagesIn(old(store.messages), store.sessions.Keys)
        && store.toolCalls == SessionStore.ToolCallsIn(old(store.toolCalls), store.sessions.Keys)
      ensures store != null && !(r.Accepted? && !(Given(sessionId) && sessionId.value in old(sessions))) ==>
        unchanged(store)
    {
      ghost var stored := store != null && Given(sessionId) && sessionId.value in store.sessions;
      ghost var o := Send(message, sessionId, preflight, uuidHex, created, ids, sessions, store != null, stored);
      if Strip(message) == [] {
        r := Rejected(400, "No message provided");
      } else if Given(sessionId) && sessionId.value in sessions {
        var id := sessionId.value;
        if sessions[id].isRunning {
          r := Rejected(409, "Agent is already processing");
        } else {
          sessions := sessions[id := sessions[id].(isRunning := true)];
          r := Accepted(id, "processing");
        }
      } else if !preflight.0 {
        r := Rejected(503, preflight.1);
      } else if Given(sessionId) && store != null && store.GetSession(sessionId.value).None? {
        r := Rejected(404, "Session not found");
      } else {
        var id := if Given(sessionId) && store != null then sessionId.value else uuidHex[..12];
        if store != null {
          store.EnsureSession(id, model, now);
        }
        // A new `SessionState` is never running, so the busy check passes and it starts at once.
        ids := Inserted(ids, id);
        sessions := sessions[id := created.(isRunning := true)];
        r := Accepted(id, "processing");
      }
      assert r == o.reply;
    }

    /**
     * `list_sessions`. `persisted` is what the store's `list_sessions`
     * returns, in its order; it is consulted only when there is a store.
     */
    method ListSessions(persisted: seq<Summary>) returns (result: seq<Listed>)
      requires Valid()
      ensures result == LiveListing(ids, sessions) + (if store != null then PersistedListing(ids, persisted) else [])
    {
      result := [];
      var i := 0;
      while i < |ids|
        invariant 0 <= i <= |ids|
        invariant result == LiveListing(ids[..i], sessions)
      {
        assert ids[..i + 1][..i] == ids[..i];
        result := result + [LiveEntry(ids[i], sessions[ids[i]])];
        i := i + 1;
      }
      assert ids[..i] == ids;
      if store != null {
        var live := result;
        var j := 0;
        while j < |persisted|
          invariant 0 <= j <= |persisted|
          invariant result == live + PersistedListing(ids, persisted[..j])
        {
          assert persisted[..j + 1][..j] == persisted[..j];
          var s := persisted[j];
          if s.sessionId !in ids {
            result := result + [PersistedEntry(s)];
          }
          j := j + 1;
        }
        assert persisted[..j] == persisted;
      }
    }

    /** `delete_session`: 404 only when the session is neither in memory nor persisted. */
    method DeleteSession(id: string) returns (r: Reply)
      requires Valid()
      modifies this, store
      ensures Valid()
      ensures ids == Removed(old(ids), id) && sessions == old(sessions) - {id}
      ensures store != null ==>
        store.sessions == old(store.sessions) - {id}
        && store.messages == SessionStore.MessagesIn(old(store.messages), store.sessions.Keys)
        && store.toolCalls == SessionStore.ToolCallsIn(old(store.toolCalls), store.sessions.Keys)
      ensures r == (if id in old(sessions) || (store != null && id in old(store.sessions)) then Accepted(id, "deleted")
                    else Rejected(404, "Session not found"))
    {
      var live := id in sessions;
      RemovedDistinct(ids, id);
      ids := Removed(ids, id);
      sessions := sessions - {id};
      assert forall i :: 0 <= i < |ids| ==> ids[i] in sessions by {
        forall i | 0 <= i < |ids|
          ensures ids[i] in sessions
        {
          assert ids[i] in ids;
        }
      }
      var deleted := false;
      if store != null {
        deleted := store.DeleteSession(id);
      }
      if live || deleted {
        r := Accepted(id, "deleted");
      } else {
        r := Rejected(404, "Session not found");
      }
    }

    /**
     * `rename_session`. `title` is the request's "title" (None when absent
     * or null). An in-memory session takes the stripped title; the store
     * derives its own.
     */
    method RenameSession(id: string, title: Option<string>, now: string) returns (r: Reply)
      requires Valid()
      modifies this, store
      ensures Valid()
      ensures ids == old(ids)
      ensures store != null ==> store.messages == old(store.messages) && store.toolCalls == old(store.toolCalls)
      ensures var t := Strip(if title.Some? then title.value else "");
        t == [] ==> r == Rejected(400, "Title is required") && sessions == old(sessions)
                    && (store != null ==> store.sessions == old(store.sessions))
      ensures var t := Strip(if title.Some? then title.value else "");
        t != [] ==>
          sessions == (if id in old(sessions) then old(sessions)[id := old(sessions)[id].(title := Some(t), updatedAt := now)]
                       else old(sessions))
          && (store != null ==>
                store.sessions == (if id in old(store.sessions)
                                   then old(store.sessions)[id := old(store.sessions)[id].(
                                          title := Some(SessionStore.DeriveTitle(t, SessionStore.TitleMaxLen)), updatedAt := now)]
                                   else old(store.sessions)))
          && r == (if id in old(sessions) || (store != null && id in old(store.sessions)) then Accepted(id, "renamed")
                   else Rejected(404, "Session not found"))
    {
      var t := Strip(if title.Some? then title.value else "");
      if t == [] {
        return Rejected(400, "Title is required");
      }
      var live := id in sessions;
      if live {
        sessions := sessions[id := sessions[id].(title := Some(t), updatedAt := now)];
      }
      var persisted := false;
      if store != null {
        persisted := store.GetSession(id).Some?;
        if persisted {
          store.SetTitle(id, t, now);
          assert store.sessions.Keys == old(store.sessions).Keys;
        }
      }
      if live || persisted {
        r := Accepted(id, "renamed");
      } else {
        r := Rejected(404, "Session not found");
      }
    }
  }
}
