/** Whole lives of a conversation buffer: what every sequence of operations and reloads preserves. */
module ConversationRuns {
  import opened Collections
  import opened Conversation

  /** `history` is every message ever appended on the way to the buffer's present contents, and
      `savedHistory` the same for the contents of the session file. */
  datatype State = State(
    messages: seq<Message>,
    file: Option<seq<Record>>,
    history: seq<Message>,
    savedHistory: seq<Message>)

  datatype Event =
    | Append(message: Message, written: bool)
    | CompactNow(written: bool)
    | CompactLlm(answer: Option<string>, written: bool)
    | Reload

  const START: State := State([], None, [], [])

  function Persisted(s: State, messages: seq<Message>, history: seq<Message>, written: bool): State {
    if written then State(messages, Some(Written(messages)), history, history)
    else s.(messages := messages, history := history)
  }

  /** The effect of each method of the buffer object. */
  function Step(s: State, e: Event): State {
    match e
    case Append(m, written) => Persisted(s, Appended(s.messages, m), s.history + [m], written)
    case CompactNow(written) =>
      if |s.messages| <= 1 then s else Persisted(s, Compacted(s.messages), s.history, written)
    case CompactLlm(answer, written) =>
      if !EnoughToCompact(s.messages) then s
      else Persisted(s, CompactedWithLlm(s.messages, answer), s.history, written)
    case Reload => s.(messages := LoadedFrom(s.file), history := s.savedHistory)
  }

  function Run(events: seq<Event>): State {
    if events == [] then START else Step(Run(events[..|events| - 1]), events[|events| - 1])
  }

  // ------------------------------------------------------------------
  // The turn cap
  // ------------------------------------------------------------------

  ghost predicate TurnsBounded(s: State) {
    && UserCount(s.messages) <= 40
    && (s.file.Some? ==> exists ms :: s.file.value == Written(ms) && UserCount(ms) <= 40)
  }

  lemma LastMessagesUsers(ms: seq<Message>)
    ensures UserCount(LastMessages(ms)) <= UserCount(ms)
  {
    if |ms| > LOAD_LIMIT {
      assert ms == ms[..|ms| - LOAD_LIMIT] + ms[|ms| - LOAD_LIMIT..];
      UserCountConcat(ms[..|ms| - LOAD_LIMIT], ms[|ms| - LOAD_LIMIT..]);
    }
  }

  lemma CompactedWithLlmUsers(ms: seq<Message>, answer: Option<string>)
    requires EnoughToCompact(ms)
    ensures UserCount(CompactedWithLlm(ms, answer)) == UserCount(ms) - COMPRESS_BATCH
  {
    if answer.Some? && answer.value != "" {
      LlmFailureKeepsTheSameSuffix(ms, answer.value);
      UserCountConcat([LlmSummary(answer.value)], ms[Boundary(ms, COMPRESS_BATCH)..]);
    } else {
      assert ms != [];
      CompressedUsers(ms);
    }
  }

  lemma StepKeepsTurnsBounded(s: State, e: Event)
    requires TurnsBounded(s)
    ensures TurnsBounded(Step(s, e))
  {
    var next := Step(s, e);
    match e {
      case Append(m, _) => AppendedUsers(s.messages, m);
      case CompactNow(_) => CompactNowShrinksIff(s.messages);
      case CompactLlm(answer, _) =>
        if EnoughToCompact(s.messages) {
          CompactedWithLlmUsers(s.messages, answer);
        }
      case Reload =>
        if s.file.Some? {
          var ms :| s.file.value == Written(ms) && UserCount(ms) <= MAX_TURNS;
          ReloadIsLosslessIff(ms);
          LastMessagesUsers(ms);
        }
    }
    assert next.file == s.file || next.file == Some(Written(next.messages));
  }

  /** However appends, compactions, failed writes and reloads are mixed, the buffer never holds
      more than forty user turns. */
  lemma {:induction false} TurnCapHolds(events: seq<Event>)
    ensures TurnsBounded(Run(events))
    decreases |events|
  {
    if events != [] {
      TurnCapHolds(events[..|events| - 1]);
      StepKeepsTurnsBounded(Run(events[..|events| - 1]), events[|events| - 1]);
    }
  }

  /** The cap is on turns only: the number of messages has no bound. */
  lemma {:induction false} MessagesUnbounded(n: nat) returns (events: seq<Event>)
    ensures |Run(events).messages| == n && UserCount(Run(events).messages) == 0
    decreases n
  {
    if n == 0 {
      events := [];
    } else {
      var before := MessagesUnbounded(n - 1);
      var m := Message(Tool, Plain(""));
      events := before + [Append(m, true)];
      assert events[..|events| - 1] == before;
      UserCountConcat(Run(before).messages, [m]);
    }
  }

  // ------------------------------------------------------------------
  // The shape of the buffer
  // ------------------------------------------------------------------

  predicate IsSummary(m: Message) {
    m.role == Assistant && !m.content.Plain?
  }

  predicate IsSuffix(ms: seq<Message>, history: seq<Message>) {
    |ms| <= |history| && ms == history[|history| - |ms|..]
  }

  /** The whole history, or one summary followed by a suffix of it: in order and without gaps. */
  predicate WellShaped(ms: seq<Message>, history: seq<Message>) {
    || ms == history
    || (ms != [] && IsSummary(ms[0]) && IsSuffix(ms[1..], history))
  }

  /** As above, but a reload may have dropped the summary. */
  predicate LooselyShaped(ms: seq<Message>, history: seq<Message>) {
    || IsSuffix(ms, history)
    || (ms != [] && IsSummary(ms[0]) && IsSuffix(ms[1..], history))
  }

  lemma WellShapedIsLoose(ms: seq<Message>, history: seq<Message>)
    requires WellShaped(ms, history)
    ensures LooselyShaped(ms, history)
  {
  }

  lemma DropKeepsSuffix(ms: seq<Message>, history: seq<Message>, k: nat)
    requires IsSuffix(ms, history) && k <= |ms|
    ensures IsSuffix(ms[k..], history)
  {
    var from := |history| - |ms|;
    assert history[from..][k..] == history[from + k..];
  }

  /** Replacing a non-empty prefix by a summary keeps the rest a suffix. */
  lemma CutKeepsShape(ms: seq<Message>, history: seq<Message>, b: int, summary: Message)
    requires LooselyShaped(ms, history) && 0 < b <= |ms| && IsSummary(summary)
    ensures WellShaped([summary] + ms[b..], history)
  {
    DropKeepsShape(ms, history, b);
    assert ([summary] + ms[b..])[1..] == ms[b..];
  }

  lemma DropKeepsShape(ms: seq<Message>, history: seq<Message>, b: int)
    requires LooselyShaped(ms, history) && 0 < b <= |ms|
    ensures IsSuffix(ms[b..], history)
  {
    if IsSuffix(ms, history) {
      DropKeepsSuffix(ms, history, b);
    } else {
      DropKeepsSuffix(ms[1..], history, b - 1);
      assert ms[b..] == ms[1..][b - 1..];
    }
  }

  lemma ExtendKeepsShape(ms: seq<Message>, history: seq<Message>, m: Message)
    ensures WellShaped(ms, history) ==> WellShaped(ms + [m], history + [m])
    ensures LooselyShaped(ms, history) ==> LooselyShaped(ms + [m], history + [m])
  {
    if ms != [] {
      assert (ms + [m])[1..] == ms[1..] + [m];
    }
  }

  lemma CompressedKeepsShape(ms: seq<Message>, history: seq<Message>, force: bool)
    requires ms != [] && LooselyShaped(ms, history)
    ensures LooselyShaped(Compressed(ms, force), history)
    ensures WellShaped(ms, history) ==> WellShaped(Compressed(ms, force), history)
  {
    var batch := Boundary(ms, COMPRESS_BATCH);
    var b := if batch == 0 && force then MaxInt(1, |ms| / 2) else batch;
    if b > 0 {
      CutKeepsShape(ms, history, b, SummaryOf(ms[..b]));
    }
  }

  lemma CompactedWithLlmKeepsShape(ms: seq<Message>, history: seq<Message>, answer: Option<string>)
    requires LooselyShaped(ms, history)
    ensures LooselyShaped(CompactedWithLlm(ms, answer), history)
    ensures WellShaped(ms, history) ==> WellShaped(CompactedWithLlm(ms, answer), history)
  {
    if EnoughToCompact(ms) {
      BoundaryIff(ms, COMPRESS_BATCH);
      if answer.Some? && answer.value != "" {
        CutKeepsShape(ms, history, Boundary(ms, COMPRESS_BATCH), LlmSummary(answer.value));
      } else {
        CompressedKeepsShape(ms, history, true);
      }
    }
  }

  lemma LastMessagesKeepShape(ms: seq<Message>, history: seq<Message>)
    requires LooselyShaped(ms, history)
    ensures LooselyShaped(LastMessages(ms), history)
  {
    if |ms| > LOAD_LIMIT {
      DropKeepsShape(ms, history, |ms| - LOAD_LIMIT);
    }
  }

  ghost predicate FileLoose(s: State) {
    s.file.Some? ==> exists ms :: s.file.value == Written(ms) && LooselyShaped(ms, s.savedHistory)
  }

  /** Whatever happens, what the buffer holds besides one leading summary is an unbroken tail of
      what was appended. */
  lemma {:induction false} NoGapsEver(events: seq<Event>)
    ensures LooselyShaped(Run(events).messages, Run(events).history)
    ensures FileLoose(Run(events))
    ensures Run(events).file.None? ==> Run(events).savedHistory == []
    decreases |events|
  {
    if events != [] {
      var s, e := Run(events[..|events| - 1]), events[|events| - 1];
      NoGapsEver(events[..|events| - 1]);
      var next := Step(s, e);
      match e {
        case Append(m, _) => AppendKeepsShape(s.messages, s.history, m);
        case CompactNow(_) =>
          if |s.messages| > 1 {
            CompressedKeepsShape(s.messages, s.history, true);
          }
        case CompactLlm(answer, _) => CompactedWithLlmKeepsShape(s.messages, s.history, answer);
        case Reload =>
          if s.file.Some? {
            var ms :| s.file.value == Written(ms) && LooselyShaped(ms, s.savedHistory);
            ReloadIsLosslessIff(ms);
            LastMessagesKeepShape(ms, s.savedHistory);
          }
      }
      assert || (next.file == s.file && next.savedHistory == s.savedHistory)
             || (next.file == Some(Written(next.messages)) && next.savedHistory == next.history);
    }
  }

  lemma AppendKeepsShape(ms: seq<Message>, history: seq<Message>, m: Message)
    requires LooselyShaped(ms, history)
    ensures LooselyShaped(Appended(ms, m), history + [m])
    ensures WellShaped(ms, history) ==> WellShaped(Appended(ms, m), history + [m])
  {
    ExtendKeepsShape(ms, history, m);
    if UserCount(ms + [m]) > MAX_TURNS {
      CompressedKeepsShape(ms + [m], history + [m], false);
    }
  }

  /** No reload of the run met a file longer than the load limit. */
  ghost predicate ReloadsFit(events: seq<Event>) {
    forall i :: 0 <= i < |events| && events[i] == Reload && Run(events[..i]).file.Some? ==>
      |Run(events[..i]).file.value| <= 80
  }

  ghost predicate FileWellShaped(s: State) {
    s.file.Some? ==> exists ms :: s.file.value == Written(ms) && WellShaped(ms, s.savedHistory)
  }

  lemma PersistKeepsWellShaped(s: State, messages: seq<Message>, history: seq<Message>, written: bool)
    requires WellShaped(messages, history) && FileWellShaped(s)
    ensures WellShaped(Persisted(s, messages, history, written).messages,
                       Persisted(s, messages, history, written).history)
    ensures FileWellShaped(Persisted(s, messages, history, written))
  {
  }

  lemma ReloadKeepsWellShaped(s: State)
    requires FileWellShaped(s)
    requires s.file.None? ==> s.savedHistory == []
    requires s.file.Some? ==> |s.file.value| <= LOAD_LIMIT
    ensures WellShaped(LoadedFrom(s.file), s.savedHistory)
  {
    if s.file.Some? {
      var ms :| s.file.value == Written(ms) && WellShaped(ms, s.savedHistory);
      assert |Written(ms)| == |ms|;
      ReloadIsLosslessIff(ms);
    }
  }

  lemma StepKeepsWellShaped(s: State, e: Event)
    requires WellShaped(s.messages, s.history) && FileWellShaped(s)
    requires s.file.None? ==> s.savedHistory == []
    requires e == Reload && s.file.Some? ==> |s.file.value| <= LOAD_LIMIT
    ensures WellShaped(Step(s, e).messages, Step(s, e).history)
    ensures FileWellShaped(Step(s, e))
  {
    match e {
      case Append(m, written) => AppendStepKeepsWellShaped(s, m, written);
      case CompactNow(written) => CompactStepKeepsWellShaped(s, written);
      case CompactLlm(answer, written) => LlmStepKeepsWellShaped(s, answer, written);
      case Reload => ReloadKeepsWellShaped(s);
    }
  }

  lemma AppendStepKeepsWellShaped(s: State, m: Message, written: bool)
    requires WellShaped(s.messages, s.history) && FileWellShaped(s)
    ensures var t := Step(s, Append(m, written)); WellShaped(t.messages, t.history) && FileWellShaped(t)
  {
    WellShapedIsLoose(s.messages, s.history);
    AppendKeepsShape(s.messages, s.history, m);
    PersistKeepsWellShaped(s, Appended(s.messages, m), s.history + [m], written);
  }

  lemma CompactStepKeepsWellShaped(s: State, written: bool)
    requires WellShaped(s.messages, s.history) && FileWellShaped(s)
    ensures var t := Step(s, CompactNow(written)); WellShaped(t.messages, t.history) && FileWellShaped(t)
  {
    if |s.messages| > 1 {
      WellShapedIsLoose(s.messages, s.history);
      CompressedKeepsShape(s.messages, s.history, true);
      PersistKeepsWellShaped(s, Compacted(s.messages), s.history, written);
    }
  }

  lemma LlmStepKeepsWellShaped(s: State, answer: Option<string>, written: bool)
    requires WellShaped(s.messages, s.history) && FileWellShaped(s)
    ensures var t := Step(s, CompactLlm(answer, written)); WellShaped(t.messages, t.history) && FileWellShaped(t)
  {
    if EnoughToCompact(s.messages) {
      WellShapedIsLoose(s.messages, s.history);
      CompactedWithLlmKeepsShape(s.messages, s.history, answer);
      PersistKeepsWellShaped(s, CompactedWithLlm(s.messages, answer), s.history, written);
    }
  }

  /** As long as every reloaded file held at most eighty messages, nothing is lost silently: the
      buffer is the whole history, or one summary and then an unbroken tail of it. */
  lemma {:induction false} NothingLostSilently(events: seq<Event>)
    requires ReloadsFit(events)
    ensures WellShaped(Run(events).messages, Run(events).history)
    ensures FileWellShaped(Run(events))
    decreases |events|
  {
    if events != [] {
      var n := |events| - 1;
      var before := events[..n];
      assert forall i :: 0 <= i < n ==> events[..i] == before[..i] && events[i] == before[i];
      NothingLostSilently(before);
      NoGapsEver(before);
      StepKeepsWellShaped(Run(before), events[n]);
    }
  }

  // ------------------------------------------------------------------
  // Automatic compression alone
  // ------------------------------------------------------------------

  /** The number of automatic compressions after `users` user turns: one at the 41st and one every
      ten turns after it. */
  function Compressions(users: nat): nat {
    if users <= MAX_TURNS then 0 else (users - (MAX_TURNS + 1 - COMPRESS_BATCH)) / COMPRESS_BATCH
  }

  function AppendedAll(history: seq<Message>): seq<Message> {
    if history == [] then [] else Appended(AppendedAll(history[..|history| - 1]), history[|history| - 1])
  }

  /** The messages already compressed away: the shortest prefix with the right number of turns. */
  function Dropped(history: seq<Message>): nat {
    Boundary(history, COMPRESS_BATCH * Compressions(UserCount(history)))
  }

  /** Up to forty turns the buffer is the history; after that it is one summary and everything
      after the last dropped user turn. */
  ghost predicate FollowsHistory(ms: seq<Message>, history: seq<Message>) {
    var k := Compressions(UserCount(history));
    && (k == 0 ==> ms == history)
    && (k > 0 ==> ms != [] && IsSummary(ms[0]) && ms[1..] == history[Dropped(history)..])
    && UserCount(ms) == UserCount(history) - COMPRESS_BATCH * k
  }

  /** Under appends alone the buffer is determined by the history, up to the text of the summary,
      and the part dropped holds a multiple of ten user turns. */
  lemma {:induction false} AppendsAlone(history: seq<Message>)
    ensures FollowsHistory(AppendedAll(history), history)
    ensures UserCount(history[..Dropped(history)]) == COMPRESS_BATCH * Compressions(UserCount(history))
    decreases |history|
  {
    var k := Compressions(UserCount(history));
    if k > 0 {
      BoundaryIff(history, COMPRESS_BATCH * k);
    }
    if history != [] {
      var n := |history| - 1;
      assert history == history[..n] + [history[n]];
      AppendsAlone(history[..n]);
      AppendsAloneStep(AppendedAll(history[..n]), history[..n], history[n]);
    }
  }

  lemma {:induction false} BoundaryPrefix(ms: seq<Message>, tail: seq<Message>, k: nat)
    requires UserCount(ms) >= k
    ensures Boundary(ms + tail, k) == Boundary(ms, k)
    decreases |ms|
  {
    if k > 0 && ms != [] {
      assert (ms + tail)[1..] == ms[1..] + tail;
      if !(ms[0].role == User && k == 1) {
        BoundaryPrefix(ms[1..], tail, if ms[0].role == User then k - 1 else k);
      }
    }
  }

  lemma CompressionsStep(users: nat, more: nat)
    requires more <= 1
    ensures var j := Compressions(users);
            && users - COMPRESS_BATCH * j <= MAX_TURNS
            && Compressions(users + more) ==
               if users + more - COMPRESS_BATCH * j > MAX_TURNS then j + 1 else j
  {
  }

  lemma AppendsAloneStep(ms: seq<Message>, before: seq<Message>, m: Message)
    requires FollowsHistory(ms, before)
    ensures FollowsHistory(Appended(ms, m), before + [m])
  {
    var j := Compressions(UserCount(before));
    UserCountConcat(before, [m]);
    UserCountConcat(ms, [m]);
    CompressionsStep(UserCount(before), UserCount([m]));
    AppendedUsers(ms, m);
    LongerFollows(ms, before, m);
    if UserCount(ms + [m]) > MAX_TURNS {
      CompressedFollows(ms + [m], before + [m], j, Dropped(before));
    }
  }

  lemma CompressedFollows(longer: seq<Message>, history: seq<Message>, j: nat, d: nat)
    requires Compressions(UserCount(history)) == j + 1
    requires UserCount(longer) == UserCount(history) - COMPRESS_BATCH * j && UserCount(longer) > MAX_TURNS
    requires d == Boundary(history, COMPRESS_BATCH * j)
    requires if j == 0 then longer == history
             else longer != [] && IsSummary(longer[0]) && longer[1..] == history[d..]
    ensures longer != [] && FollowsHistory(Compressed(longer, false), history)
  {
    assert COMPRESS_BATCH * j + COMPRESS_BATCH == COMPRESS_BATCH * (j + 1);
    CompressionAdvances(history, COMPRESS_BATCH * j, d, longer);
    CompressedUsers(longer);
  }

  lemma LongerFollows(ms: seq<Message>, before: seq<Message>, m: Message)
    requires FollowsHistory(ms, before)
    ensures var j := Compressions(UserCount(before));
            && Dropped(before) == Boundary(before + [m], COMPRESS_BATCH * j)
            && (j > 0 ==> (ms + [m])[1..] == (before + [m])[Dropped(before)..])
  {
    BoundaryPrefix(before, [m], COMPRESS_BATCH * Compressions(UserCount(before)));
  }

  lemma DropDrop(ms: seq<Message>, d: nat, k: nat)
    requires d + k <= |ms|
    ensures ms[d..][k..] == ms[d + k..]
  {
  }

  /** One more compression moves the cut by ten user turns of the raw history. */
  lemma CompressionAdvances(history: seq<Message>, cut: nat, d: nat, longer: seq<Message>)
    requires d == Boundary(history, cut)
    requires UserCount(history) >= cut + COMPRESS_BATCH
    requires UserCount(longer) >= COMPRESS_BATCH
    requires if cut == 0 then longer == history
             else longer != [] && longer[0].role == Assistant && longer[1..] == history[d..]
    ensures longer != []
    ensures var b := Boundary(longer, COMPRESS_BATCH);
            && Compressed(longer, false) == [SummaryOf(longer[..b])] + longer[b..]
            && longer[b..] == history[Boundary(history, cut + COMPRESS_BATCH)..]
  {
    BoundaryIff(longer, COMPRESS_BATCH);
    if cut > 0 {
      SuffixAdvances(history, cut, d, longer);
    }
  }

  lemma SuffixAdvances(history: seq<Message>, cut: nat, d: nat, longer: seq<Message>)
    requires cut > 0 && d == Boundary(history, cut)
    requires UserCount(history) >= cut + COMPRESS_BATCH
    requires UserCount(longer) >= COMPRESS_BATCH && longer != []
    requires longer[0].role == Assistant && longer[1..] == history[d..]
    ensures longer[Boundary(longer, COMPRESS_BATCH)..] == history[Boundary(history, cut + COMPRESS_BATCH)..]
  {
    BoundaryCompose(history, cut, COMPRESS_BATCH);
    BoundaryTail(longer, COMPRESS_BATCH);
    var b := Boundary(longer, COMPRESS_BATCH);
    DropDrop(longer, 1, b - 1);
    DropDrop(history, d, b - 1);
  }
}
