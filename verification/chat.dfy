/** The per-turn orchestrator `get_answer`: it splits the transcript into the
    active query and the history, asks the intent crew for an intent record,
    calls the fetch-and-ingest step when the intent asks for it, turns the
    fetched entries into a list of titles and kicks off exactly one of the two
    responder crews.

    The crews and the fetch-and-ingest step are opaque: they are the function
    fields of `Crews`, each of which may raise, and a turn records every call
    made to them, in order, as a `Call`. */
module Chat {
  import opened Py

  /** One transcript entry. */
  datatype ChatMessage = ChatMessage(role: string, content: string)

  /** The intent record the intent crew returns: any keys, any values. */
  type Intent = map<string, Value>

  /** The dictionary a responder crew returns. */
  type Answer = map<string, Value>

  /** The input of the intent crew. */
  datatype StageOneInput = StageOneInput(userQuery: string, chatHistory: seq<ChatMessage>)

  /** The input of the responder crew. `fetch` and `request` are passed on from
      the intent record as they are, so they may be any value. */
  datatype StageTwoInput = StageTwoInput(
    userQuery: string,
    chatHistory: seq<ChatMessage>,
    fetch: Value,
    papers: seq<Value>,
    request: Value)

  datatype Responder = QaCrew | ChitchatCrew

  /** The opaque collaborators of `get_answer`: each returns its value or
      raises, and `get_answer` catches none of their exceptions. */
  datatype Crews = Crews(
    intent: StageOneInput -> Result<Intent>,
    fetchPapersAndIngest: (Value, Value) -> Result<Value>,  // (queries, categories) to fetched entries
    qa: StageTwoInput -> Result<Answer>,
    chitchat: StageTwoInput -> Result<Answer>)

  /** A call made to one of the collaborators. */
  datatype Call =
    | Classify(stageOne: StageOneInput)
    | Fetch(queries: Value, categories: Value)
    | Respond(responder: Responder, stageTwo: StageTwoInput)

  /** What one turn did: the calls it made, in order, and what it returned or raised. */
  datatype Turn = Turn(calls: seq<Call>, reply: Result<Answer>)

  /** The fetch calls among `calls`, in order. */
  function Fetches(calls: seq<Call>): (r: seq<Call>)
    ensures |r| <= |calls|
    ensures forall i | 0 <= i < |r| :: r[i].Fetch? && r[i] in calls
  {
    if calls == [] then [] else (if calls[0].Fetch? then [calls[0]] else []) + Fetches(calls[1..])
  }

  /** The responder kickoffs among `calls`, in order. */
  function Responses(calls: seq<Call>): (r: seq<Call>)
    ensures |r| <= |calls|
    ensures forall i | 0 <= i < |r| :: r[i].Respond? && r[i] in calls
  {
    if calls == [] then [] else (if calls[0].Respond? then [calls[0]] else []) + Responses(calls[1..])
  }

  lemma {:induction false} FetchesAppend(a: seq<Call>, b: seq<Call>)
    ensures Fetches(a + b) == Fetches(a) + Fetches(b)
  {
    if a == [] {
      assert a + b == b;
    } else {
      assert (a + b)[0] == a[0];
      assert (a + b)[1..] == a[1..] + b;
      FetchesAppend(a[1..], b);
    }
  }

  lemma {:induction false} ResponsesAppend(a: seq<Call>, b: seq<Call>)
    ensures Responses(a + b) == Responses(a) + Responses(b)
  {
    if a == [] {
      assert a + b == b;
    } else {
      assert (a + b)[0] == a[0];
      assert (a + b)[1..] == a[1..] + b;
      ResponsesAppend(a[1..], b);
    }
  }

  lemma FilterCallsAppend(a: seq<Call>, b: seq<Call>)
    ensures Fetches(a + b) == Fetches(a) + Fetches(b)
    ensures Responses(a + b) == Responses(a) + Responses(b)
  {
    FetchesAppend(a, b);
    ResponsesAppend(a, b);
  }

  /** The active query and the history: the last message's content and every
      message before it, in order. An empty transcript raises IndexError. */
  function SplitTranscript(transcript: seq<ChatMessage>): (r: Result<StageOneInput>)
    ensures r.Err? <==> transcript == []
    ensures r.Err? ==> r.error == IndexError
    ensures r.Ok? ==> r.value.chatHistory + [ChatMessage(transcript[|transcript| - 1].role, r.value.userQuery)] == transcript
    ensures r.Ok? ==> |r.value.chatHistory| == |transcript| - 1
  {
    if transcript == [] then Err(IndexError)
    else Ok(StageOneInput(transcript[|transcript| - 1].content, transcript[..|transcript| - 1]))
  }

  /** The titles `get_answer` keeps from a list of fetched entries: for each
      entry in order, its "title" when the entry is truthy and its "title" is
      truthy. A truthy entry that is not a dict has no `.get` and raises
      AttributeError. */
  function TitlesOfEntries(entries: seq<Value>): (r: Result<seq<Value>>)
    ensures r.Ok? ==> |r.value| <= |entries|
    ensures r.Ok? ==> forall i | 0 <= i < |r.value| :: Truthy(r.value[i])
    ensures r.Err? ==> r.error == AttributeError
  {
    if entries == [] then Ok([])
    else
      var p := entries[0];
      if !Truthy(p) then TitlesOfEntries(entries[1..])
      else if !p.DictV? then Err(AttributeError)
      else
        var title := Get(p.entries, "title", NoneV);
        match TitlesOfEntries(entries[1..])
        case Err(e) => Err(e)
        case Ok(rest) => Ok(if Truthy(title) then [title] + rest else rest)
  }

  /** `p` is a dict whose "title" is `t` and `t` is truthy. */
  predicate HasTitle(p: Value, t: Value) {
    p.DictV? && "title" in p.entries && p.entries["title"] == t && Truthy(t)
  }

  /** Python's evaluation order for two successive stretches of a list:
      the first exception wins, otherwise the results are concatenated. */
  function Then(first: Result<seq<Value>>, second: Result<seq<Value>>): Result<seq<Value>> {
    match first
    case Err(e) => Err(e)
    case Ok(xs) => match second { case Err(e) => Err(e) case Ok(ys) => Ok(xs + ys) }
  }

  /** Filtering a concatenation filters each part in turn: the titles keep
      the order of their entries. */
  lemma {:induction false} TitlesAppend(a: seq<Value>, b: seq<Value>)
    ensures TitlesOfEntries(a + b) == Then(TitlesOfEntries(a), TitlesOfEntries(b))
  {
    if a == [] {
      assert a + b == b;
      var rb := TitlesOfEntries(b);
      if rb.Ok? { assert [] + rb.value == rb.value; }
    } else {
      assert (a + b)[0] == a[0];
      assert (a + b)[1..] == a[1..] + b;
      TitlesAppend(a[1..], b);
      var ra, rb := TitlesOfEntries(a[1..]), TitlesOfEntries(b);
      if ra.Ok? && rb.Ok? {
        if a[0].DictV? {
          var title := Get(a[0].entries, "title", NoneV);
          assert ([title] + ra.value) + rb.value == [title] + (ra.value + rb.value);
        }
      }
    }
  }

  /** The filter raises exactly when some entry is truthy but not a dict. */
  lemma {:induction false} TitlesOkIff(entries: seq<Value>)
    ensures TitlesOfEntries(entries).Ok? <==> forall i | 0 <= i < |entries| :: !Truthy(entries[i]) || entries[i].DictV?
  {
    if entries != [] {
      TitlesOkIff(entries[1..]);
      assert forall i | 1 <= i < |entries| :: entries[i] == entries[1..][i - 1];
    }
  }

  /** A value is among the kept titles exactly when some entry is a dict whose
      "title" is that value and truthy. */
  lemma {:induction false} TitlesMembership(entries: seq<Value>, t: Value)
    requires TitlesOfEntries(entries).Ok?
    ensures t in TitlesOfEntries(entries).value <==> exists i | 0 <= i < |entries| :: HasTitle(entries[i], t)
  {
    if entries != [] {
      TitlesMembership(entries[1..], t);
      assert forall i | 1 <= i < |entries| :: entries[i] == entries[1..][i - 1];
      if exists i | 0 <= i < |entries| :: HasTitle(entries[i], t) {
        var i :| 0 <= i < |entries| && HasTitle(entries[i], t);
        if i > 0 {
          assert HasTitle(entries[1..][i - 1], t);
        }
      }
    }
  }

  /** When every entry is a dict with a truthy "title", every title is kept,
      in order. */
  lemma {:induction false} TitlesOfTitledEntries(entries: seq<Value>)
    requires forall i | 0 <= i < |entries| :: entries[i].DictV? && "title" in entries[i].entries && Truthy(entries[i].entries["title"])
    ensures TitlesOfEntries(entries).Ok?
    ensures |TitlesOfEntries(entries).value| == |entries|
    ensures forall i | 0 <= i < |entries| :: TitlesOfEntries(entries).value[i] == entries[i].entries["title"]
  {
    if entries != [] {
      assert forall i | 1 <= i < |entries| :: entries[i] == entries[1..][i - 1];
      TitlesOfTitledEntries(entries[1..]);
    }
  }

  /** `papers_list`: nothing when the fetched value is falsy; otherwise the
      titles of the entries met by iterating over it. Iterating over a
      non-empty string yields one-character strings and iterating over a dict
      yields its keys; both have no `.get`, except the single key "", which is
      falsy and skipped. A number or boolean cannot be iterated. */
  function PapersList(fetched: Value): (r: Result<seq<Value>>)
    ensures !Truthy(fetched) ==> r == Ok([])
    ensures r.Ok? && fetched.ListV? ==> |r.value| <= |fetched.items|
    ensures r.Ok? && !fetched.ListV? ==> r.value == []
  {
    if !Truthy(fetched) then Ok([])
    else
      match fetched
      case ListV(entries) => TitlesOfEntries(entries)
      case StrV(_) => Err(AttributeError)
      case DictV(m) => if m.Keys == {""} then Ok([]) else Err(AttributeError)
      case _ => Err(TypeError)
  }

  /** Whether the intent asks for a fetch: `intent.get("fetch")` is truthy. */
  predicate WantsFetch(intent: Intent) {
    Truthy(Get(intent, "fetch", NoneV))
  }

  /** The calls to the fetch-and-ingest step for an intent: one call, with the
      intent's "queries" and "categories" (an empty list when missing), when
      the intent asks for a fetch, and none otherwise. */
  function FetchCalls(intent: Intent): seq<Call> {
    if WantsFetch(intent)
    then [Fetch(Get(intent, "queries", ListV([])), Get(intent, "categories", ListV([])))]
    else []
  }

  /** `fetched_papers` after the fetch gate: what the fetch step returned or
      raised when it ran, the initial empty list otherwise. */
  function Fetched(intent: Intent, crews: Crews): Result<Value> {
    if WantsFetch(intent)
    then crews.fetchPapersAndIngest(Get(intent, "queries", ListV([])), Get(intent, "categories", ListV([])))
    else Ok(ListV([]))
  }

  /** The responder crew for an intent: the QA crew when `use_rag` is truthy. */
  function Route(intent: Intent): Responder {
    if Truthy(Get(intent, "use_rag", NoneV)) then QaCrew else ChitchatCrew
  }

  /** The responder's input: the active query and the history, the intent's
      "fetch" (False when missing), the papers list and the intent's
      "request" ("" when missing). */
  function StageTwo(stageOne: StageOneInput, intent: Intent, papers: seq<Value>): StageTwoInput {
    StageTwoInput(stageOne.userQuery, stageOne.chatHistory,
      Get(intent, "fetch", BoolV(false)), papers, Get(intent, "request", StrV("")))
  }

  /** What kicking off a responder returns or raises. */
  function Kickoff(crews: Crews, responder: Responder, input: StageTwoInput): Result<Answer> {
    if responder == QaCrew then crews.qa(input) else crews.chitchat(input)
  }

  /** `get_answer(chat_history)`. No exception is caught: whatever the
      transcript split, a collaborator or the papers list raises ends the
      turn with that exception. */
  function GetAnswer(transcript: seq<ChatMessage>, crews: Crews): (t: Turn)
    ensures transcript == [] ==> t == Turn([], Err(IndexError))
    ensures transcript != [] ==> t.calls != [] && t.calls[0] == Classify(SplitTranscript(transcript).value)
    ensures |Fetches(t.calls)| <= 1
    ensures |Responses(t.calls)| <= 1
    ensures t.reply.Ok? ==> |Responses(t.calls)| == 1
    ensures |Responses(t.calls)| == 1 ==> t.calls[|t.calls| - 1].Respond?
  {
    match SplitTranscript(transcript)
    case Err(e) => Turn([], Err(e))
    case Ok(stageOne) =>
      match crews.intent(stageOne)
      case Err(e) => Turn([Classify(stageOne)], Err(e))
      case Ok(intent) =>
        var before := [Classify(stageOne)] + FetchCalls(intent);
        FilterCallsAppend([Classify(stageOne)], FetchCalls(intent));
        match Fetched(intent, crews)
        case Err(e) => Turn(before, Err(e))
        case Ok(fetched) =>
          match PapersList(fetched)
          case Err(e) => Turn(before, Err(e))
          case Ok(papers) =>
            var call := Respond(Route(intent), StageTwo(stageOne, intent, papers));
            FilterCallsAppend(before, [call]);
            Turn(before + [call], Kickoff(crews, call.responder, call.stageTwo))
  }

  /** What the intent crew returns or raises for a non-empty transcript. */
  function IntentOf(transcript: seq<ChatMessage>, crews: Crews): Result<Intent>
    requires transcript != []
  {
    crews.intent(SplitTranscript(transcript).value)
  }

  /** The classification and the fetch call kick off no responder. */
  lemma NoKickoffBefore(intent: Intent, stageOne: StageOneInput)
    ensures Responses([Classify(stageOne)] + FetchCalls(intent)) == []
  {
    FilterCallsAppend([Classify(stageOne)], FetchCalls(intent));
  }

  /** When the intent crew raises, the turn raises that exception after the
      classification call and makes no other call. */
  lemma IntentRaises(transcript: seq<ChatMessage>, crews: Crews)
    requires transcript != [] && IntentOf(transcript, crews).Err?
    ensures GetAnswer(transcript, crews)
      == Turn([Classify(SplitTranscript(transcript).value)], Err(IntentOf(transcript, crews).error))
  {
  }

  /** Once the intent crew returns, the fetch-and-ingest step runs at most
      once, exactly when the intent's "fetch" is truthy, and with the intent's
      "queries" and "categories", each an empty list when the intent has no
      such key. */
  lemma FetchGate(transcript: seq<ChatMessage>, crews: Crews)
    requires transcript != [] && IntentOf(transcript, crews).Ok?
    ensures var intent := IntentOf(transcript, crews).value;
      Fetches(GetAnswer(transcript, crews).calls)
      == if WantsFetch(intent)
         then [Fetch(Get(intent, "queries", ListV([])), Get(intent, "categories", ListV([])))]
         else []
  {
  }

  /** A fetch that raises ends the turn with its exception: the fetch was the
      last call and no responder is kicked off. A failed fetch is not turned
      into an empty papers list. */
  lemma FetchRaises(transcript: seq<ChatMessage>, crews: Crews)
    requires transcript != [] && IntentOf(transcript, crews).Ok?
    requires Fetched(IntentOf(transcript, crews).value, crews).Err?
    ensures var t := GetAnswer(transcript, crews);
      var intent := IntentOf(transcript, crews).value;
      t.reply == Err(Fetched(intent, crews).error) &&
      |Fetches(t.calls)| == 1 && t.calls[|t.calls| - 1].Fetch? &&
      Responses(t.calls) == []
  {
    var intent := IntentOf(transcript, crews).value;
    FilterCallsAppend([Classify(SplitTranscript(transcript).value)], FetchCalls(intent));
  }

  /** Once the intent crew and the fetch step return, the turn raises before
      kicking off a responder exactly when building the papers list raises,
      and then with that exception. */
  lemma PapersListRaises(transcript: seq<ChatMessage>, crews: Crews)
    requires transcript != [] && IntentOf(transcript, crews).Ok?
    requires Fetched(IntentOf(transcript, crews).value, crews).Ok?
    ensures var t := GetAnswer(transcript, crews);
      var papers := PapersList(Fetched(IntentOf(transcript, crews).value, crews).value);
      (Responses(t.calls) == [] <==> papers.Err?) &&
      (papers.Err? ==> t.reply == Err(papers.error))
  {
    var stageOne, intent := SplitTranscript(transcript).value, IntentOf(transcript, crews).value;
    var before := [Classify(stageOne)] + FetchCalls(intent);
    NoKickoffBefore(intent, stageOne);
    var papers := PapersList(Fetched(intent, crews).value);
    if papers.Ok? {
      var call := Respond(Route(intent), StageTwo(stageOne, intent, papers.value));
      FilterCallsAppend(before, [call]);
      assert Responses([call]) == [call];
    }
  }

  /** When a responder is kicked off, it is the QA crew exactly when the
      intent's "use_rag" is truthy, the turn returns or raises whatever that
      crew does, and the crew's input carries the active query and the history
      unchanged, the intent's "fetch" (False when missing), the papers list of
      the fetched entries and the intent's "request" ("" when missing). */
  lemma RespondsOnce(transcript: seq<ChatMessage>, crews: Crews)
    requires transcript != []
    requires |Responses(GetAnswer(transcript, crews).calls)| == 1
    ensures IntentOf(transcript, crews).Ok? && Fetched(IntentOf(transcript, crews).value, crews).Ok?
    ensures var t := GetAnswer(transcript, crews);
      var intent := IntentOf(transcript, crews).value;
      var call := Responses(t.calls)[0];
      var input := call.stageTwo;
      (call.responder == QaCrew <==> Truthy(Get(intent, "use_rag", NoneV))) &&
      t.reply == (if call.responder == QaCrew then crews.qa(input) else crews.chitchat(input)) &&
      input.userQuery == transcript[|transcript| - 1].content &&
      input.chatHistory == transcript[..|transcript| - 1] &&
      input.fetch == Get(intent, "fetch", BoolV(false)) &&
      input.request == Get(intent, "request", StrV("")) &&
      PapersList(Fetched(intent, crews).value) == Ok(input.papers)
  {
  }

  /** Once the intent crew returns, without a fetch, or when the fetch
      returns a falsy value, a responder is kicked off with an empty papers
      list. */
  lemma NoFetchNoPapers(transcript: seq<ChatMessage>, crews: Crews)
    requires transcript != [] && IntentOf(transcript, crews).Ok?
    requires var intent := IntentOf(transcript, crews).value;
      !WantsFetch(intent) || (Fetched(intent, crews).Ok? && !Truthy(Fetched(intent, crews).value))
    ensures var t := GetAnswer(transcript, crews);
      var intent := IntentOf(transcript, crews).value;
      Responses(t.calls) == [Respond(Route(intent), StageTwo(SplitTranscript(transcript).value, intent, []))]
  {
    var stageOne, intent := SplitTranscript(transcript).value, IntentOf(transcript, crews).value;
    var before := [Classify(stageOne)] + FetchCalls(intent);
    NoKickoffBefore(intent, stageOne);
    var call := Respond(Route(intent), StageTwo(stageOne, intent, []));
    assert PapersList(Fetched(intent, crews).value) == Ok([]);
    assert GetAnswer(transcript, crews).calls == before + [call];
    FilterCallsAppend(before, [call]);
    assert Responses([call]) == [call];
  }
}
