/** The bounded conversation buffer: compaction, persistence and reload. */
module Conversation {
  import opened Collections

  datatype Role = User | Assistant | Tool

  /** A text, or one of the two generated summaries: of a block of messages, or by the model. */
  datatype Content = Plain(text: string) | SummaryOfBlock(block: seq<Message>) | ModelSummary(text: string)

  datatype Message = Message(role: Role, content: Content)

  /** One line of the session file: a message, a blank line, another JSON value, or broken JSON. */
  datatype Record = Stored(message: Message) | Blank | Foreign | Corrupt

  const MAX_TURNS: nat := 40
  const COMPRESS_BATCH: nat := 10
  const LOAD_LIMIT: nat := 2 * MAX_TURNS

  // ------------------------------------------------------------------
  // The operations on message lists
  // ------------------------------------------------------------------

  function UserCount(ms: seq<Message>): nat {
    if ms == [] then 0 else (if ms[0].role == User then 1 else 0) + UserCount(ms[1..])
  }

  /** The position just after the `k`-th user message, or 0 when there are fewer. */
  function Boundary(ms: seq<Message>, k: nat): (b: nat)
    ensures b <= |ms|
  {
    if k == 0 || ms == [] then 0
    else if ms[0].role == User && k == 1 then 1
    else
      var rest := Boundary(ms[1..], if ms[0].role == User then k - 1 else k);
      if rest == 0 then 0 else rest + 1
  }

  function SummaryOf(block: seq<Message>): Message {
    Message(Assistant, SummaryOfBlock(block))
  }

  function LlmSummary(text: string): Message {
    Message(Assistant, ModelSummary(text))
  }

  function Compressed(ms: seq<Message>, force: bool): seq<Message>
    requires ms != []
  {
    var batch := Boundary(ms, COMPRESS_BATCH);
    var boundary := if batch == 0 && force then MaxInt(1, |ms| / 2) else batch;
    if boundary <= 0 then ms
    else [SummaryOf(ms[..boundary])] + ms[boundary..]
  }

  function Appended(ms: seq<Message>, m: Message): seq<Message> {
    var longer := ms + [m];
    if UserCount(longer) <= MAX_TURNS then longer else Compressed(longer, false)
  }

  function Compacted(ms: seq<Message>): seq<Message> {
    if |ms| <= 1 then ms else Compressed(ms, true)
  }

  predicate EnoughToCompact(ms: seq<Message>) {
    UserCount(ms) > COMPRESS_BATCH
  }

  /** The model's answer when it gave one, the string summary otherwise; an empty answer is none. */
  function CompactedWithLlm(ms: seq<Message>, answer: Option<string>): seq<Message> {
    if !EnoughToCompact(ms) then ms
    else if answer.Some? && answer.value != "" then
      [LlmSummary(answer.value)] + ms[Boundary(ms, COMPRESS_BATCH)..]
    else if ms == [] then ms
    else Compressed(ms, true)
  }

  function Messages(records: seq<Record>): seq<Message> {
    if records == [] then []
    else
      var front := Messages(records[..|records| - 1]);
      if records[|records| - 1].Stored? then front + [records[|records| - 1].message] else front
  }

  function LastMessages(ms: seq<Message>): seq<Message> {
    if |ms| <= LOAD_LIMIT then ms else ms[|ms| - LOAD_LIMIT..]
  }

  /** A missing file or one broken line gives an empty buffer. */
  function LoadedFrom(file: Option<seq<Record>>): seq<Message> {
    if file.None? || Corrupt in file.value then [] else LastMessages(Messages(file.value))
  }

  function Written(ms: seq<Message>): seq<Record> {
    seq(|ms|, i requires 0 <= i < |ms| => Stored(ms[i]))
  }

  // ------------------------------------------------------------------
  // The buffer object
  // ------------------------------------------------------------------

  class SessionFile {
    var records: Option<seq<Record>>

    constructor ()
      ensures records == None
    {
      records := None;
    }
  }

  class ConversationBuffer {
    const file: SessionFile
    var messages: seq<Message>

    /** Read errors of any kind leave the buffer empty. */
    constructor Load(file: SessionFile)
      ensures this.file == file
      ensures messages == LoadedFrom(file.records)
    {
      this.file := file;
      messages := [];
      new;
      if file.records.Some? {
        var records := file.records.value;
        var parsed := [];
        var ok := true;
        for i := 0 to |records|
          invariant ok ==> Corrupt !in records[..i] && parsed == Messages(records[..i])
          invariant !ok ==> Corrupt in records
          invariant messages == []
        {
          assert records[..i + 1][..i] == records[..i];
          if records[i] == Corrupt {
            ok := false;
            break;
          }
          if records[i].Stored? {
            parsed := parsed + [records[i].message];
          }
        }
        assert records[..|records|] == records;
        if ok {
          messages := if |parsed| <= LOAD_LIMIT then parsed else parsed[|parsed| - LOAD_LIMIT..];
        }
      }
    }

    /** The write may fail; failure is silent and leaves the file as it was. */
    method Persist(written: bool)
      modifies file
      ensures file.records == if written then Some(Written(messages)) else old(file.records)
    {
      if written {
        file.records := Some(Written(messages));
      }
    }

    method Append(m: Message, written: bool)
      modifies this, file
      ensures messages == Appended(old(messages), m)
      ensures file.records == if written then Some(Written(messages)) else old(file.records)
    {
      messages := messages + [m];
      if UserCount(messages) > MAX_TURNS {
        CompressOldestTurns(false);
      }
      Persist(written);
    }

    method FindBatchBoundary() returns (boundary: nat)
      ensures boundary == Boundary(messages, COMPRESS_BATCH)
    {
      boundary := 0;
      var usersSeen := 0;
      for i := 0 to |messages|
        invariant usersSeen < COMPRESS_BATCH && boundary == 0
        invariant Boundary(messages, COMPRESS_BATCH) ==
                  var rest := Boundary(messages[i..], COMPRESS_BATCH - usersSeen); if rest == 0 then 0 else i + rest
      {
        assert messages[i..][1..] == messages[i + 1..];
        if messages[i].role == User {
          usersSeen := usersSeen + 1;
          if usersSeen >= COMPRESS_BATCH {
            boundary := i + 1;
            break;
          }
        }
      }
    }

    method CompressOldestTurns(force: bool)
      requires messages != []
      modifies this`messages
      ensures messages == Compressed(old(messages), force)
    {
      var boundary: int := FindBatchBoundary();
      if boundary == 0 && force {
        boundary := MaxInt(1, |messages| / 2);
      }
      if boundary <= 0 {
        return;
      }
      var oldBlock := messages[..boundary];
      messages := messages[boundary..];
      messages := [SummaryOf(oldBlock)] + messages;
    }

    method CompactNow(written: bool)
      modifies this, file
      ensures messages == Compacted(old(messages))
      ensures file.records ==
              if written && |old(messages)| > 1 then Some(Written(messages)) else old(file.records)
    {
      if |messages| <= 1 {
        return;
      }
      CompressOldestTurns(true);
      Persist(written);
    }

    method CompactWithLlm(answer: Option<string>, written: bool) returns (compacted: bool)
      modifies this, file
      ensures compacted == EnoughToCompact(old(messages))
      ensures messages == CompactedWithLlm(old(messages), answer)
      ensures file.records == if written && compacted then Some(Written(messages)) else old(file.records)
    {
      if UserCount(messages) <= COMPRESS_BATCH {
        return false;
      }
      BoundaryIff(messages, COMPRESS_BATCH);
      var boundary := FindBatchBoundary();
      if answer.Some? && answer.value != "" {
        messages := messages[boundary..];
        messages := [LlmSummary(answer.value)] + messages;
      } else {
        CompressOldestTurns(true);
      }
      Persist(written);
      compacted := true;
    }
  }

  // ------------------------------------------------------------------
  // Counting users
  // ------------------------------------------------------------------

  lemma {:induction false} UserCountConcat(a: seq<Message>, b: seq<Message>)
    ensures UserCount(a + b) == UserCount(a) + UserCount(b)
    decreases |a|
  {
    if a == [] {
      assert a + b == b;
    } else {
      assert (a + b)[1..] == a[1..] + b;
      UserCountConcat(a[1..], b);
    }
  }

  /** The boundary exists exactly when there are `k` users, and then cuts off exactly `k` of them. */
  lemma {:induction false} BoundaryIff(ms: seq<Message>, k: nat)
    requires k > 0
    ensures Boundary(ms, k) > 0 <==> UserCount(ms) >= k
    ensures Boundary(ms, k) > 0 ==>
              UserCount(ms[..Boundary(ms, k)]) == k && ms[Boundary(ms, k) - 1].role == User
    decreases |ms|
  {
    if ms != [] && !(ms[0].role == User && k == 1) {
      var k' := if ms[0].role == User then k - 1 else k;
      BoundaryIff(ms[1..], k');
      var b := Boundary(ms, k);
      if b > 0 {
        assert ms[..b][1..] == ms[1..][..b - 1];
      }
    } else if ms != [] {
      assert ms[..1][1..] == [];
    }
  }

  lemma BoundaryTail(ms: seq<Message>, k: nat)
    requires k > 0 && UserCount(ms) >= k && !(ms[0].role == User && k == 1)
    ensures ms != []
    ensures var k' := if ms[0].role == User then k - 1 else k;
            UserCount(ms[1..]) >= k' && Boundary(ms, k) == 1 + Boundary(ms[1..], k')
  {
    BoundaryIff(ms[1..], if ms[0].role == User then k - 1 else k);
  }

  /** Cutting `j` users and then `k` more is cutting `j + k`. */
  lemma {:induction false} BoundaryCompose(ms: seq<Message>, j: nat, k: nat)
    requires k > 0 && UserCount(ms) >= j + k
    ensures Boundary(ms, j + k) == Boundary(ms, j) + Boundary(ms[Boundary(ms, j)..], k)
    decreases |ms|
  {
    if j == 0 {
      assert ms[0..] == ms;
    } else if ms[0].role == User && j == 1 {
      BoundaryTail(ms, j + k);
    } else {
      var j' := if ms[0].role == User then j - 1 else j;
      BoundaryTail(ms, j);
      BoundaryTail(ms, j + k);
      BoundaryCompose(ms[1..], j', k);
      assert ms[Boundary(ms, j)..] == ms[1..][Boundary(ms[1..], j')..];
    }
  }

  // ------------------------------------------------------------------
  // Single operations
  // ------------------------------------------------------------------

  lemma CompressedUsers(ms: seq<Message>)
    requires UserCount(ms) >= COMPRESS_BATCH && ms != []
    ensures forall force :: UserCount(Compressed(ms, force)) == UserCount(ms) - COMPRESS_BATCH
  {
    BoundaryIff(ms, COMPRESS_BATCH);
    var b := Boundary(ms, COMPRESS_BATCH);
    assert ms == ms[..b] + ms[b..];
    UserCountConcat(ms[..b], ms[b..]);
    UserCountConcat([SummaryOf(ms[..b])], ms[b..]);
  }

  /** An append either adds one message, or compresses away exactly ten user turns. */
  lemma AppendedUsers(ms: seq<Message>, m: Message)
    requires UserCount(ms) <= 40
    ensures UserCount(Appended(ms, m)) ==
            var total := UserCount(ms) + (if m.role == User then 1 else 0);
            if total <= 40 then total else total - 10
    ensures UserCount(Appended(ms, m)) <= 40
    ensures UserCount(ms + [m]) <= 40 ==> Appended(ms, m) == ms + [m]
  {
    UserCountConcat(ms, [m]);
    if UserCount(ms + [m]) > MAX_TURNS {
      CompressedUsers(ms + [m]);
    }
  }

  /** Manual compaction never grows the buffer and shrinks it exactly from four messages up. */
  lemma CompactNowShrinksIff(ms: seq<Message>)
    ensures |Compacted(ms)| <= |ms|
    ensures |Compacted(ms)| < |ms| <==> |ms| >= 4
    ensures UserCount(Compacted(ms)) <= UserCount(ms)
  {
    if |ms| > 1 {
      BoundaryIff(ms, COMPRESS_BATCH);
      var batch := Boundary(ms, COMPRESS_BATCH);
      if batch > 0 {
        UserCountAtMost(ms[..batch]);
      }
      var b := if batch == 0 then MaxInt(1, |ms| / 2) else batch;
      assert ms == ms[..b] + ms[b..];
      UserCountConcat(ms[..b], ms[b..]);
      UserCountConcat([SummaryOf(ms[..b])], ms[b..]);
    }
  }

  /** The oldest `b` messages have given way to one message in their place. */
  ghost predicate CutAt(before: seq<Message>, after: seq<Message>, summary: Message, b: int) {
    0 < b <= |before| && after == [summary] + before[b..]
  }

  /** Where the buffer is cut: after the tenth user message, which is the last to go; or, when there are fewer and
      compaction is asked for, in the middle. The summary stands for exactly what went. */
  lemma CompactNowCuts(ms: seq<Message>) returns (b: int)
    requires |ms| > 1
    ensures 0 < b <= |ms| && CutAt(ms, Compacted(ms), SummaryOf(ms[..b]), b)
    ensures UserCount(ms) >= 10 ==> UserCount(ms[..b]) == 10 && ms[b - 1].role == User
    ensures UserCount(ms) < 10 ==>
              b == MaxInt(1, |ms| / 2) && |Compacted(ms)| == |ms| - MaxInt(1, |ms| / 2) + 1
  {
    BoundaryIff(ms, COMPRESS_BATCH);
    b := |ms| - |Compacted(ms)| + 1;
  }

  /** A single message is not turned into a summary of itself. */
  lemma SingleMessageStays(ms: seq<Message>)
    requires |ms| <= 1
    ensures Compacted(ms) == ms
  {
  }

  lemma AppendCuts(ms: seq<Message>, m: Message) returns (b: int)
    requires UserCount(ms + [m]) > 40
    ensures 0 < b <= |ms + [m]| && CutAt(ms + [m], Appended(ms, m), SummaryOf((ms + [m])[..b]), b)
    ensures UserCount((ms + [m])[..b]) == 10 && (ms + [m])[b - 1].role == User
  {
    BoundaryIff(ms + [m], COMPRESS_BATCH);
    b := |ms + [m]| - |Appended(ms, m)| + 1;
  }

  /** Asking the model changes nothing up to ten turns; beyond, its answer or else the textual summary takes the
      place of the first ten. */
  lemma LlmCuts(ms: seq<Message>, answer: Option<string>) returns (b: int)
    ensures UserCount(ms) <= 10 ==> CompactedWithLlm(ms, answer) == ms
    ensures UserCount(ms) > 10 ==>
              && 0 < b <= |ms|
              && CutAt(ms, CompactedWithLlm(ms, answer),
                       if answer.Some? && answer.value != "" then LlmSummary(answer.value) else SummaryOf(ms[..b]), b)
              && UserCount(ms[..b]) == 10 && ms[b - 1].role == User
  {
    BoundaryIff(ms, COMPRESS_BATCH);
    b := if EnoughToCompact(ms) then |ms| - |CompactedWithLlm(ms, answer)| + 1 else 0;
  }

  lemma {:induction false} UserCountAtMost(ms: seq<Message>)
    ensures UserCount(ms) <= |ms|
    decreases |ms|
  {
    if ms != [] {
      UserCountAtMost(ms[1..]);
    }
  }

  function CompactedTimes(ms: seq<Message>, n: nat): seq<Message>
    decreases n
  {
    if n == 0 then ms else CompactedTimes(Compacted(ms), n - 1)
  }

  /** Repeated manual compaction reaches at most three messages and stays there. */
  lemma {:induction false} RepeatedCompactionSettles(ms: seq<Message>, n: nat)
    ensures |ms| <= n + 3 ==> |CompactedTimes(ms, n)| <= 3
    decreases n
  {
    if n > 0 {
      CompactNowShrinksIff(ms);
      RepeatedCompactionSettles(Compacted(ms), n - 1);
    }
  }

  /** A failed model call and a successful one keep the same messages; only the summary differs. */
  lemma LlmFailureKeepsTheSameSuffix(ms: seq<Message>, answer: string)
    requires EnoughToCompact(ms) && answer != ""
    ensures var b := Boundary(ms, COMPRESS_BATCH);
            && CompactedWithLlm(ms, Some(answer)) == [LlmSummary(answer)] + ms[b..]
            && CompactedWithLlm(ms, None) == [SummaryOf(ms[..b])] + ms[b..]
            && UserCount(ms[b..]) == UserCount(ms) - COMPRESS_BATCH
  {
    BoundaryIff(ms, COMPRESS_BATCH);
    var b := Boundary(ms, COMPRESS_BATCH);
    assert ms == ms[..b] + ms[b..];
    UserCountConcat(ms[..b], ms[b..]);
  }

  lemma {:induction false} MessagesOfWritten(ms: seq<Message>)
    ensures Messages(Written(ms)) == ms
    decreases |ms|
  {
    if ms != [] {
      var n := |ms| - 1;
      assert Written(ms)[..n] == Written(ms[..n]);
      MessagesOfWritten(ms[..n]);
      assert ms == ms[..n] + [ms[n]];
    }
  }

  /** Saving and loading is lossless exactly up to the load limit; beyond it the oldest messages
      go without a summary. */
  lemma ReloadIsLosslessIff(ms: seq<Message>)
    ensures LoadedFrom(Some(Written(ms))) == ms <==> |ms| <= 80
    ensures LoadedFrom(Some(Written(ms))) == LastMessages(ms)
  {
    MessagesOfWritten(ms);
  }
}
