/**
 Packing of chat history (dashboard/chat_client.py): the most recent messages that fit a
 message, a character and a token budget, the oldest of them cut if need be.

 Intent routing is any function of a message; None stands for an unknown intent or a failure.
 */
module ChatPacking {
  import opened Wrappers

  const MAX_MESSAGES: nat := 20
  const OMISSION_MARKER: string :=
    "[Các lượt lịch sử cũ hơn đã được lược bỏ để giới hạn chi phí context; chỉ dùng các lượt gần đây dưới đây.]"
  const CUT_MARKER: string := "\n...[message lịch sử bị cắt để giới hạn context]\n"

  datatype Message = Message(role: string, content: string)

  /** An element of the stored history; only dictionaries are messages. */
  datatype Stored = NotAMessage | Entry(role: string, content: string)

  /** A Python list. */
  type History = history: seq<Stored> | |history| < 0x8000_0000_0000_0000

  /** The intents the router can name. */
  datatype Intent =
    | ExplainIncident | RecommendAction | LogSearch | RgwDiagnosis | CrushAnalysis | BackupStatus | VolumeInsight
    | PgHealth | OsdHealth | NodeMetrics | PoolCapacity | ClusterHealth

  datatype Settings = Settings(maxChars: int, maxTokens: int, route: string -> Option<Intent>) {
    function CharLimit(): nat { if maxChars < 1000 then 1000 else maxChars }
    function TokenLimit(): nat { if maxTokens < 256 then 256 else maxTokens }
  }

  // ----- One message -----

  /** Two characters make a token. */
  function EstimatedTokens(text: string): (tokens: nat)
    ensures |text| <= 2 * tokens < |text| + 2
  {
    (|text| + 1) / 2
  }

  function Max(a: int, b: int): int { if a > b then a else b }

  /** Keeps the beginning and the end of a message that is too long, with the marker between them. */
  function Truncate(text: string, limit: nat): string {
    if |text| <= limit then text
    else if limit <= |CUT_MARKER| then text[..limit]
    else
      var available := limit - |CUT_MARKER|;
      var head := Max(1, available * 3 / 5);
      var tail := Max(1, available - head);
      text[..head] + CUT_MARKER + text[|text| - tail..]
  }

  type Shortener = (string, nat) -> string

  /** What selection relies on: short texts are left alone, and only one limit is missed, by one. */
  ghost predicate Shortens(shorten: Shortener, missed: int) {
    missed > 0 && forall text, limit: nat ::
      if |text| <= limit then shorten(text, limit) == text
      else |shorten(text, limit)| == if limit == missed then limit + 1 else limit
  }

  /** The marker has 49 characters, so the limit 50, which leaves one beside it, is the one missed. */
  const MISSED: int := 50

  lemma TruncateMissesOneLimit()
    ensures Shortens(Truncate, MISSED)
  {
  }

  /**
   From that limit on a cut message is its own beginning and end around the marker; above it the beginning
   takes three fifths, rounded down, of what the marker leaves.
   */
  lemma TruncateKeepsBothEnds(text: string, limit: nat) returns (head: nat, tail: nat)
    requires |text| > limit >= MISSED
    ensures 0 < tail <= head + 1 && head > 0
    ensures limit > MISSED ==> 5 * head <= 3 * (limit - |CUT_MARKER|) < 5 * head + 5
    ensures head + tail + |CUT_MARKER| == if limit == MISSED then limit + 1 else limit
    ensures Truncate(text, limit) == text[..head] + CUT_MARKER + text[|text| - tail..]
  {
    var available := limit - |CUT_MARKER|;
    head, tail := HeadAndTail(available);
    assert available == 1 <==> limit == MISSED;
  }

  lemma HeadAndTail(available: nat) returns (head: nat, tail: nat)
    requires available > 0
    ensures head == Max(1, available * 3 / 5) && tail == Max(1, available - head)
    ensures 0 < tail <= head + 1 && head > 0
    ensures if available == 1 then head == tail == 1
            else head + tail == available && 5 * head <= 3 * available < 5 * head + 5
  {
    head := Max(1, available * 3 / 5);
    tail := Max(1, available - head);
  }

  /** Below that limit there is no room for the marker, and the beginning is kept. */
  lemma TruncateKeepsBeginning(text: string, limit: nat)
    requires limit < MISSED
    ensures Truncate(text, limit) == if |text| <= limit then text else text[..limit]
  {
    assert |CUT_MARKER| == 49;
  }

  // ----- Selection -----

  /** What is left for older messages. */
  datatype Budget = Budget(chars: int, tokens: int, slots: int) {
    predicate Open() { slots > 0 && chars > 0 && tokens > 0 }

    predicate Nonnegative() { slots >= 0 && chars >= 0 && tokens >= 0 }

    /** The most characters one more message may have. */
    function Room(): (room: int)
      ensures Open() ==> room > 0
    {
      if chars < 2 * tokens then chars else 2 * tokens
    }

    /** An empty message is skipped and costs nothing. */
    function After(content: string): Budget {
      if |content| == 0 then this
      else Budget(chars - |content|, tokens - EstimatedTokens(content), slots - 1)
    }

    ghost predicate Covers(kept: seq<Message>) {
      |kept| <= slots && TotalChars(kept) <= chars && TotalTokens(kept) <= tokens
    }
  }

  /** The messages kept of the first ``n``, oldest first, chosen from the newest backwards. */
  function Keep(messages: seq<Message>, n: nat, budget: Budget, shorten: Shortener): seq<Message>
    requires n <= |messages|
  {
    if n == 0 || !budget.Open() then []
    else
      var content := shorten(messages[n - 1].content, budget.Room());
      Keep(messages, n - 1, budget.After(content), shorten)
      + if |content| == 0 then [] else [Message(messages[n - 1].role, content)]
  }

  function Reverse(ms: seq<Message>): (rs: seq<Message>)
    ensures |rs| == |ms|
  {
    if ms == [] then [] else [ms[|ms| - 1]] + Reverse(ms[..|ms| - 1])
  }

  function TotalChars(ms: seq<Message>): nat {
    if ms == [] then 0 else TotalChars(ms[..|ms| - 1]) + |ms[|ms| - 1].content|
  }

  function TotalTokens(ms: seq<Message>): nat {
    if ms == [] then 0 else TotalTokens(ms[..|ms| - 1]) + EstimatedTokens(ms[|ms| - 1].content)
  }

  function Normalize(history: seq<Stored>): (ms: seq<Message>)
    ensures |ms| <= |history|
    ensures forall m :: m in ms ==> m.role != ""
  {
    if history == [] then []
    else
      var front := Normalize(history[..|history| - 1]);
      match history[|history| - 1]
      case NotAMessage => front
      case Entry(role, content) => front + [Message(if role == "" then "assistant" else role, content)]
  }

  predicate Fits(cfg: Settings, ms: seq<Message>) {
    |ms| <= MAX_MESSAGES && TotalChars(ms) <= cfg.CharLimit() && TotalTokens(ms) <= cfg.TokenLimit()
  }

  // ----- The summary of what is omitted -----

  const SUMMARY_START: string := "[Tóm tắt lịch sử cũ: "
  const SUMMARY_USERS: string := " lượt user, "
  const SUMMARY_ASSISTANTS: string := " lượt assistant; intent: "
  const SUMMARY_END: string := ". Không dùng summary này làm live evidence.]"
  const NO_INTENT: string := "chưa xác định"
  const MAX_INTENTS: nat := 5

  function NameOf(intent: Intent): string {
    match intent
    case ExplainIncident => "explain_incident"
    case RecommendAction => "recommend_action"
    case LogSearch => "log_search"
    case RgwDiagnosis => "rgw_diagnosis"
    case CrushAnalysis => "crush_analysis"
    case BackupStatus => "backup_status"
    case VolumeInsight => "volume_insight"
    case PgHealth => "pg_health"
    case OsdHealth => "osd_health"
    case NodeMetrics => "node_metrics"
    case PoolCapacity => "pool_capacity"
    case ClusterHealth => "cluster_health"
  }

  function Users(ms: seq<Message>): (users: seq<Message>)
    ensures |users| <= |ms|
  {
    if ms == [] then []
    else
      var m := ms[|ms| - 1];
      Users(ms[..|ms| - 1]) + if m.role == "user" then [m] else []
  }

  /** The named intents, in order of first mention. */
  function Intents(route: string -> Option<Intent>, users: seq<Message>): seq<Intent> {
    if users == [] then []
    else
      var earlier := Intents(route, users[..|users| - 1]);
      match route(users[|users| - 1].content)
      case None => earlier
      case Some(intent) => if intent in earlier then earlier else earlier + [intent]
  }

  function Joined(intents: seq<Intent>): string {
    if intents == [] then ""
    else if |intents| == 1 then NameOf(intents[0])
    else Joined(intents[..|intents| - 1]) + ", " + NameOf(intents[|intents| - 1])
  }

  function Decimal(n: nat): string {
    var digit := ('0' as int + n % 10) as char;
    if n < 10 then [digit] else Decimal(n / 10) + [digit]
  }

  function ScopeOf(intents: seq<Intent>): string {
    if intents == [] then NO_INTENT else Joined(if |intents| > MAX_INTENTS then intents[..MAX_INTENTS] else intents)
  }

  function Summary(route: string -> Option<Intent>, ms: seq<Message>): string {
    var users := Users(ms);
    SUMMARY_START + Decimal(|users|) + SUMMARY_USERS + Decimal(|ms| - |users|) + SUMMARY_ASSISTANTS
    + ScopeOf(Intents(route, users)) + SUMMARY_END
  }

  // ----- How long the summary can be -----

  lemma NamesAreShort(intent: Intent)
    ensures |NameOf(intent)| <= 16
  {
  }

  lemma {:induction false} JoinedLength(intents: seq<Intent>)
    ensures |Joined(intents)| <= 18 * |intents|
  {
    if intents != [] {
      NamesAreShort(intents[|intents| - 1]);
      JoinedLength(intents[..|intents| - 1]);
    }
  }

  lemma ScopeIsShort(intents: seq<Intent>)
    ensures |ScopeOf(intents)| <= 90
  {
    JoinedLength(if |intents| > MAX_INTENTS then intents[..MAX_INTENTS] else intents);
    assert |NO_INTENT| == 13;
  }

  function PowerOfTen(k: nat): nat { if k == 0 then 1 else 10 * PowerOfTen(k - 1) }

  lemma {:induction false} DecimalLength(n: nat, k: nat)
    requires 0 < k && n < PowerOfTen(k)
    ensures |Decimal(n)| <= k
  {
    if n >= 10 {
      DecimalLength(n / 10, k - 1);
    }
  }

  lemma CountIsShort(n: nat)
    requires n < 0x8000_0000_0000_0000
    ensures |Decimal(n)| <= 19
  {
    assert PowerOfTen(5) == 100_000;
    assert PowerOfTen(10) == 10_000_000_000;
    assert PowerOfTen(15) == 1_000_000_000_000_000;
    assert PowerOfTen(19) == 10_000_000_000_000_000_000;
    DecimalLength(n, 19);
  }

  lemma FixedTextLength()
    ensures |SUMMARY_START| + |SUMMARY_USERS| + |SUMMARY_ASSISTANTS| + |SUMMARY_END| == 102
  {
  }

  lemma SummaryIsShort(route: string -> Option<Intent>, ms: seq<Message>)
    requires |ms| < 0x8000_0000_0000_0000
    ensures |Summary(route, ms)| <= 230
  {
    var users := Users(ms);
    CountIsShort(|users|);
    CountIsShort(|ms| - |users|);
    ScopeIsShort(Intents(route, users));
    FixedTextLength();
  }

  lemma OmissionMarkerLength()
    ensures |OMISSION_MARKER| == 106
  {
  }

  // ----- The packed history -----

  function Prefix(cfg: Settings, ms: seq<Message>): (prefix: seq<Message>)
    ensures |prefix| == 2
  {
    [Message("assistant", OMISSION_MARKER), Message("assistant", Summary(cfg.route, ms))]
  }

  /** What marker and summary leave of the limits. */
  function ContentBudget(cfg: Settings, prefix: seq<Message>): Budget {
    Budget(Max(1, cfg.CharLimit() - TotalChars(prefix)), Max(1, cfg.TokenLimit() - TotalTokens(prefix)),
           Max(1, MAX_MESSAGES - |prefix|))
  }

  function Kept(cfg: Settings, ms: seq<Message>, prefix: seq<Message>): seq<Message> {
    Keep(ms, |ms|, ContentBudget(cfg, prefix), Truncate)
  }

  function PackBeside(cfg: Settings, ms: seq<Message>, prefix: seq<Message>): seq<Message> {
    if Fits(cfg, ms) then ms else prefix + Kept(cfg, ms, prefix)
  }

  function Pack(cfg: Settings, history: History): seq<Message> {
    var ms := Normalize(history);
    PackBeside(cfg, ms, Prefix(cfg, ms))
  }

  method PackChatHistory(cfg: Settings, history: History) returns (packed: seq<Message>)
    ensures packed == Pack(cfg, history)
  {
    var normalized := Normalize(history);
    if normalized == [] {
      return [];
    }
    if Fits(cfg, normalized) {
      return normalized;
    }
    var prefix := Prefix(cfg, normalized);
    var selected := SelectRecent(normalized, ContentBudget(cfg, prefix), Truncate);
    packed := prefix + selected;
  }

  /** The selection loop, newest message first. */
  method SelectRecent(messages: seq<Message>, budget: Budget, shorten: Shortener) returns (selected: seq<Message>)
    ensures selected == Keep(messages, |messages|, budget, shorten)
  {
    var selectedReversed: seq<Message> := [];
    var i := |messages|;
    var remaining := budget;
    ghost var all := Keep(messages, i, budget, shorten);
    while i > 0
      invariant 0 <= i <= |messages|
      invariant all == Keep(messages, i, remaining, shorten) + Reverse(selectedReversed)
    {
      if !remaining.Open() {
        break;
      }
      i := i - 1;
      var content := shorten(messages[i].content, remaining.Room());
      if |content| == 0 {
        continue;
      }
      var kept := Message(messages[i].role, content);
      ReverseSnoc(selectedReversed, kept);
      selectedReversed := selectedReversed + [kept];
      remaining := remaining.After(content);
    }
    selected := Reverse(selectedReversed);
  }

  lemma ReverseSnoc(ms: seq<Message>, m: Message)
    ensures Reverse(ms + [m]) == [m] + Reverse(ms)
  {
    assert (ms + [m])[..|ms|] == ms;
  }

  // ----- The budgets -----

  /** The limit at which the oldest kept message was cut, or 0; nothing older is kept after that. */
  function CutLimit(messages: seq<Message>, n: nat, budget: Budget): int
    requires n <= |messages|
  {
    if n == 0 || !budget.Open() then 0
    else if |messages[n - 1].content| > budget.Room() then budget.Room()
    else CutLimit(messages, n - 1, budget.After(messages[n - 1].content))
  }

  /** A cut message uses up a budget, so it is the oldest one kept. */
  lemma CutEndsSelection(messages: seq<Message>, n: nat, budget: Budget, shorten: Shortener, missed: int)
    requires Shortens(shorten, missed)
    requires 0 < n <= |messages| && budget.Open() && |messages[n - 1].content| > budget.Room()
    ensures Keep(messages, n, budget, shorten)
         == [Message(messages[n - 1].role, shorten(messages[n - 1].content, budget.Room()))]
  {
    var content := shorten(messages[n - 1].content, budget.Room());
    assert Keep(messages, n - 1, budget.After(content), shorten) == [];
  }

  /** A message that fits is kept whole, and selection goes on with what is left. */
  lemma WholeMessageIsKept(messages: seq<Message>, n: nat, budget: Budget, shorten: Shortener, missed: int)
    requires Shortens(shorten, missed)
    requires 0 < n <= |messages| && budget.Open() && |messages[n - 1].content| <= budget.Room()
    ensures var m := messages[n - 1];
      && budget.After(m.content).Nonnegative()
      && Keep(messages, n, budget, shorten) == Keep(messages, n - 1, budget.After(m.content), shorten) + Solid(m)
  {
  }

  function Solid(m: Message): seq<Message> { if |m.content| == 0 then [] else [m] }

  /** The budgets are exceeded by at most one, and hold unless a message was cut at the missed limit. */
  ghost predicate KeepsUnless(kept: seq<Message>, budget: Budget, cutLimit: int, missed: int) {
    && Budget(budget.chars + 1, budget.tokens + 1, budget.slots).Covers(kept)
    && (budget.Covers(kept) <==> cutLimit != missed)
  }

  lemma NothingKeepsBudget(budget: Budget, missed: int)
    requires budget.Nonnegative() && missed > 0
    ensures KeepsUnless([], budget, 0, missed)
  {
  }

  lemma CutKeepsBudgetUnless(budget: Budget, m: Message, missed: int)
    requires budget.Open()
    requires |m.content| == if budget.Room() == missed then missed + 1 else budget.Room()
    ensures KeepsUnless([m], budget, budget.Room(), missed)
  {
    OneMessage(m);
  }

  lemma WholeKeepsBudgetUnless(kept: seq<Message>, budget: Budget, m: Message, cutLimit: int, missed: int)
    requires budget.Open() && |m.content| <= budget.Room()
    requires KeepsUnless(kept, budget.After(m.content), cutLimit, missed)
    ensures KeepsUnless(kept + Solid(m), budget, cutLimit, missed)
  {
    SolidTotals(kept, m);
  }

  /** Both budgets hold exactly when no message was cut at the missed limit; the excess is then one. */
  lemma {:induction false} KeepStaysWithinBudgets(
      messages: seq<Message>, n: nat, budget: Budget, shorten: Shortener, missed: int, kept: seq<Message>)
    requires Shortens(shorten, missed) && n <= |messages| && budget.Nonnegative()
    requires kept == Keep(messages, n, budget, shorten)
    ensures KeepsUnless(kept, budget, CutLimit(messages, n, budget), missed)
  {
    if n == 0 || !budget.Open() {
      NothingKeepsBudget(budget, missed);
    } else {
      var m := messages[n - 1];
      if |m.content| > budget.Room() {
        CutEndsSelection(messages, n, budget, shorten, missed);
        CutKeepsBudgetUnless(budget, kept[0], missed);
      } else {
        WholeMessageIsKept(messages, n, budget, shorten, missed);
        var older := Keep(messages, n - 1, budget.After(m.content), shorten);
        KeepStaysWithinBudgets(messages, n - 1, budget.After(m.content), shorten, missed, older);
        WholeKeepsBudgetUnless(older, budget, m, CutLimit(messages, n - 1, budget.After(m.content)), missed);
      }
    }
  }

  /** Selection stops early only when the messages, the characters or the tokens are used up. */
  lemma {:induction false} NothingIsLeftOutWhileThereIsRoom(
      messages: seq<Message>, n: nat, budget: Budget, shorten: Shortener, missed: int)
    requires Shortens(shorten, missed) && n <= |messages| && budget.Nonnegative()
    ensures var kept := Keep(messages, n, budget, shorten);
      || kept == NonEmpty(messages[..n])
      || |kept| == budget.slots || TotalChars(kept) >= budget.chars || TotalTokens(kept) >= budget.tokens
  {
    if n != 0 && budget.Open() {
      var m := messages[n - 1];
      NonEmptySnoc(messages, n);
      if |m.content| > budget.Room() {
        CutEndsSelection(messages, n, budget, shorten, missed);
        OneMessage(Message(m.role, shorten(m.content, budget.Room())));
      } else {
        WholeMessageIsKept(messages, n, budget, shorten, missed);
        NothingIsLeftOutWhileThereIsRoom(messages, n - 1, budget.After(m.content), shorten, missed);
        SolidTotals(Keep(messages, n - 1, budget.After(m.content), shorten), m);
      }
    }
  }

  lemma OneMessage(m: Message)
    ensures TotalChars([m]) == |m.content| && TotalTokens([m]) == EstimatedTokens(m.content)
  {
    assert [m][..0] == [];
  }

  lemma SolidTotals(ms: seq<Message>, m: Message)
    ensures TotalChars(ms + Solid(m)) == TotalChars(ms) + |m.content|
    ensures TotalTokens(ms + Solid(m)) == TotalTokens(ms) + EstimatedTokens(m.content)
  {
    if |m.content| == 0 {
      assert ms + Solid(m) == ms;
    } else {
      TotalsSnoc(ms, m);
    }
  }

  lemma TotalsSnoc(ms: seq<Message>, m: Message)
    ensures TotalChars(ms + [m]) == TotalChars(ms) + |m.content|
    ensures TotalTokens(ms + [m]) == TotalTokens(ms) + EstimatedTokens(m.content)
  {
    assert (ms + [m])[..|ms|] == ms;
  }

  lemma {:induction false} TotalsConcat(a: seq<Message>, b: seq<Message>)
    ensures TotalChars(a + b) == TotalChars(a) + TotalChars(b)
    ensures TotalTokens(a + b) == TotalTokens(a) + TotalTokens(b)
  {
    if b == [] {
      assert a + b == a;
    } else {
      assert a + b == (a + b[..|b| - 1]) + [b[|b| - 1]];
      TotalsConcat(a, b[..|b| - 1]);
      TotalsSnoc(a + b[..|b| - 1], b[|b| - 1]);
    }
  }

  // ----- What is kept -----

  function NonEmpty(ms: seq<Message>): seq<Message> {
    if ms == [] then []
    else NonEmpty(ms[..|ms| - 1]) + Solid(ms[|ms| - 1])
  }

  /** ``m`` with its content cut to a positive limit, or whole. */
  ghost predicate CutFrom(m: Message, original: Message, limit: int, shorten: Shortener) {
    limit > 0 && m == Message(original.role, shorten(original.content, limit))
  }

  ghost predicate CutOrWhole(m: Message, original: Message, shorten: Shortener) {
    exists limit: int :: CutFrom(m, original, limit, shorten)
  }

  /** ``kept`` ends ``all``; only its oldest message may be a cut version of the original. */
  ghost predicate RecentSuffix(kept: seq<Message>, all: seq<Message>, shorten: Shortener) {
    && |kept| <= |all|
    && (forall i :: 0 < i < |kept| ==> kept[i] == all[|all| - |kept| + i])
    && (kept != [] ==> CutOrWhole(kept[0], all[|all| - |kept|], shorten))
  }

  lemma {:induction false} KeptIsRecentSuffix(messages: seq<Message>, n: nat, budget: Budget, shorten: Shortener,
      missed: int)
    requires Shortens(shorten, missed) && n <= |messages|
    ensures RecentSuffix(Keep(messages, n, budget, shorten), NonEmpty(messages[..n]), shorten)
  {
    if n != 0 && budget.Open() {
      var m := messages[n - 1];
      NonEmptySnoc(messages, n);
      if |m.content| > budget.Room() {
        CutEndsSelection(messages, n, budget, shorten, missed);
        CutIsRecentSuffix(NonEmpty(messages[..n - 1]), m, budget.Room(), shorten);
      } else {
        WholeMessageIsKept(messages, n, budget, shorten, missed);
        KeptIsRecentSuffix(messages, n - 1, budget.After(m.content), shorten, missed);
        RecentSuffixSnoc(Keep(messages, n - 1, budget.After(m.content), shorten), NonEmpty(messages[..n - 1]),
                         m, budget.Room(), shorten, missed);
      }
    }
  }

  lemma NonEmptySnoc(messages: seq<Message>, n: nat)
    requires 0 < n <= |messages|
    ensures NonEmpty(messages[..n]) == NonEmpty(messages[..n - 1]) + Solid(messages[n - 1])
  {
    assert messages[..n][..n - 1] == messages[..n - 1];
  }

  lemma CutIsRecentSuffix(all: seq<Message>, m: Message, limit: int, shorten: Shortener)
    requires 0 < limit < |m.content|
    ensures RecentSuffix([Message(m.role, shorten(m.content, limit))], all + Solid(m), shorten)
  {
    assert CutFrom(Message(m.role, shorten(m.content, limit)), m, limit, shorten);
  }

  lemma RecentSuffixSnoc(kept: seq<Message>, all: seq<Message>, m: Message, limit: nat, shorten: Shortener, missed: int)
    requires Shortens(shorten, missed) && RecentSuffix(kept, all, shorten) && |m.content| <= limit && limit > 0
    ensures RecentSuffix(kept + Solid(m), all + Solid(m), shorten)
  {
    assert CutFrom(m, m, limit, shorten);
    if |m.content| == 0 {
      assert kept + Solid(m) == kept && all + Solid(m) == all;
    }
  }

  /** What follows marker and summary are the latest messages, in order; only the oldest can be cut. */
  lemma PackedHistoryIsRecent(cfg: Settings, history: History)
    ensures var ms := Normalize(history);
      var packed := Pack(cfg, history);
      || packed == ms
      || (|packed| >= 2 && packed[..2] == Prefix(cfg, ms) && RecentSuffix(packed[2..], NonEmpty(ms), Truncate))
  {
    var ms := Normalize(history);
    PackedBesideIsRecent(cfg, ms, Prefix(cfg, ms));
  }

  lemma PackedBesideIsRecent(cfg: Settings, ms: seq<Message>, prefix: seq<Message>)
    requires |prefix| == 2
    ensures var packed := PackBeside(cfg, ms, prefix);
      || packed == ms
      || (|packed| >= 2 && packed[..2] == prefix && RecentSuffix(packed[2..], NonEmpty(ms), Truncate))
  {
    if !Fits(cfg, ms) {
      TruncateMissesOneLimit();
      KeptIsRecentSuffix(ms, |ms|, ContentBudget(cfg, prefix), Truncate, MISSED);
      assert ms[..|ms|] == ms;
      assert (prefix + Kept(cfg, ms, prefix))[2..] == Kept(cfg, ms, prefix);
    }
  }

  // ----- The limits of the packed history -----

  /** The prefix leaves room for at least one character and one token. */
  ghost predicate LeavesRoom(cfg: Settings, prefix: seq<Message>) {
    TotalChars(prefix) < cfg.CharLimit() && TotalTokens(prefix) < cfg.TokenLimit()
  }

  /** Marker and summary always leave room. */
  lemma PrefixLeavesRoom(cfg: Settings, ms: seq<Message>)
    requires |ms| < 0x8000_0000_0000_0000
    ensures LeavesRoom(cfg, Prefix(cfg, ms))
  {
    OmissionMarkerLength();
    SummaryIsShort(cfg.route, ms);
    TwoMessages(Prefix(cfg, ms)[0], Prefix(cfg, ms)[1]);
  }

  lemma TwoMessages(a: Message, b: Message)
    ensures TotalChars([a, b]) == |a.content| + |b.content|
    ensures TotalTokens([a, b]) == EstimatedTokens(a.content) + EstimatedTokens(b.content)
  {
    OneMessage(a);
    TotalsSnoc([a], b);
    assert [a, b] == [a] + [b];
  }

  /** A message is cut so that just one character would be left beside the marker. */
  predicate CutLeavesOneCharacter(cfg: Settings, ms: seq<Message>, prefix: seq<Message>) {
    !Fits(cfg, ms) && CutLimit(ms, |ms|, ContentBudget(cfg, prefix)) == MISSED
  }

  lemma PackedBesideFitsIff(cfg: Settings, ms: seq<Message>, prefix: seq<Message>)
    requires |prefix| == 2 && LeavesRoom(cfg, prefix)
    ensures var packed := PackBeside(cfg, ms, prefix);
      && |packed| <= MAX_MESSAGES
      && TotalChars(packed) <= cfg.CharLimit() + 1 && TotalTokens(packed) <= cfg.TokenLimit() + 1
      && (Fits(cfg, packed) <==> !CutLeavesOneCharacter(cfg, ms, prefix))
  {
    if !Fits(cfg, ms) {
      TruncateMissesOneLimit();
      KeepStaysWithinBudgets(ms, |ms|, ContentBudget(cfg, prefix), Truncate, MISSED, Kept(cfg, ms, prefix));
      TotalsConcat(prefix, Kept(cfg, ms, prefix));
    }
  }

  /**
   A packed history has at most 20 messages, exceeds the other limits by at most one, and keeps them
   if and only if no message is cut so that one character would be left beside the marker.
   */
  lemma PackedHistoryFitsIff(cfg: Settings, history: History)
    ensures var packed := Pack(cfg, history);
      && |packed| <= MAX_MESSAGES
      && TotalChars(packed) <= cfg.CharLimit() + 1 && TotalTokens(packed) <= cfg.TokenLimit() + 1
      && (Fits(cfg, packed)
          <==> !CutLeavesOneCharacter(cfg, Normalize(history), Prefix(cfg, Normalize(history))))
  {
    var ms := Normalize(history);
    PrefixLeavesRoom(cfg, ms);
    PackedBesideFitsIff(cfg, ms, Prefix(cfg, ms));
  }

  // ----- What packing leaves out -----

  /** The limits that are set: 20 messages, at least 1000 characters and at least 256 tokens. */
  predicate WithinLimits(cfg: Settings, ms: seq<Message>) {
    && |ms| <= 20
    && (TotalChars(ms) <= 1000 || TotalChars(ms) <= cfg.maxChars)
    && (TotalTokens(ms) <= 256 || TotalTokens(ms) <= cfg.maxTokens)
  }

  predicate UsesUpALimit(cfg: Settings, ms: seq<Message>) {
    || |ms| == 20
    || (TotalChars(ms) >= 1000 && TotalChars(ms) >= cfg.maxChars)
    || (TotalTokens(ms) >= 256 && TotalTokens(ms) >= cfg.maxTokens)
  }

  lemma PackedBesideUsesUpALimit(cfg: Settings, ms: seq<Message>, prefix: seq<Message>)
    requires |prefix| == 2 && LeavesRoom(cfg, prefix) && !Fits(cfg, ms)
    ensures var packed := PackBeside(cfg, ms, prefix);
      packed == prefix + NonEmpty(ms) || UsesUpALimit(cfg, packed)
  {
    var kept := Kept(cfg, ms, prefix);
    TruncateMissesOneLimit();
    NothingIsLeftOutWhileThereIsRoom(ms, |ms|, ContentBudget(cfg, prefix), Truncate, MISSED);
    TotalsConcat(prefix, kept);
    assert ms[..|ms|] == ms;
  }

  /**
   A history within the limits is left alone. Of any other a nonempty message is left out or cut only when
   20 messages, the characters or the tokens that are set are used up.
   */
  lemma PackUsesUpALimit(cfg: Settings, history: History)
    ensures var ms, packed := Normalize(history), Pack(cfg, history);
      if WithinLimits(cfg, ms) then packed == ms
      else packed == Prefix(cfg, ms) + NonEmpty(ms) || UsesUpALimit(cfg, packed)
  {
    var ms := Normalize(history);
    assert Fits(cfg, ms) <==> WithinLimits(cfg, ms);
    if !Fits(cfg, ms) {
      PrefixLeavesRoom(cfg, ms);
      PackedBesideUsesUpALimit(cfg, ms, Prefix(cfg, ms));
    }
  }

  // ----- What the summary says -----

  /** The number that decimal digits denote. */
  function Denoted(digits: string): int {
    if digits == "" then 0
    else 10 * Denoted(digits[..|digits| - 1]) + (digits[|digits| - 1] as int - '0' as int)
  }

  lemma {:induction false} DecimalDenotes(n: nat)
    ensures Denoted(Decimal(n)) == n
    ensures forall c :: c in Decimal(n) ==> '0' <= c <= '9'
  {
    if n >= 10 {
      DecimalDenotes(n / 10);
      assert Decimal(n)[..|Decimal(n)| - 1] == Decimal(n / 10);
    } else {
      assert Decimal(n)[..0] == "";
    }
  }

  lemma {:induction false} UsersAreThoseAsking(ms: seq<Message>, m: Message)
    ensures multiset(Users(ms))[m] == if m.role == "user" then multiset(ms)[m] else 0
  {
    if ms != [] {
      UsersAreThoseAsking(ms[..|ms| - 1], m);
      assert ms == ms[..|ms| - 1] + [ms[|ms| - 1]];
    }
  }

  /** The intents are those of the users' messages, each once. */
  lemma {:induction false} IntentsAreAsked(route: string -> Option<Intent>, users: seq<Message>, intent: Intent)
    ensures intent in Intents(route, users) <==> exists u :: u in users && route(u.content) == Some(intent)
    ensures multiset(Intents(route, users))[intent] <= 1
  {
    if users != [] {
      var n := |users| - 1;
      IntentsAreAsked(route, users[..n], intent);
      assert users == users[..n] + [users[n]];
    }
  }

  /** A later message adds its intent at the end, so the first five are the first mentioned. */
  lemma {:induction false} IntentsOnlyGrow(route: string -> Option<Intent>, users: seq<Message>, n: nat)
    requires n <= |users|
    ensures Intents(route, users[..n]) <= Intents(route, users)
  {
    if n < |users| {
      IntentsOnlyGrow(route, users[..|users| - 1], n);
      assert users[..|users| - 1][..n] == users[..n];
    } else {
      assert users[..n] == users;
    }
  }

  /** Two numbers, which add up to the messages, and the first intents. */
  lemma SummarySays(route: string -> Option<Intent>, ms: seq<Message>)
    returns (users: string, others: string, named: seq<Intent>)
    ensures Summary(route, ms) == "[Tóm tắt lịch sử cũ: " + users + " lượt user, " + others
      + " lượt assistant; intent: " + (if named == [] then "chưa xác định" else Joined(named))
      + ". Không dùng summary này làm live evidence.]"
    ensures Denoted(users) == |Users(ms)| && Denoted(users) + Denoted(others) == |ms|
    ensures named <= Intents(route, Users(ms)) && (|named| == 5 || named == Intents(route, Users(ms)))
    ensures |named| <= 5
  {
    var count, intents := |Users(ms)|, Intents(route, Users(ms));
    users, others := Decimal(count), Decimal(|ms| - count);
    named := if |intents| > 5 then intents[..5] else intents;
    DecimalDenotes(count);
    DecimalDenotes(|ms| - count);
  }

  /** The two messages in front are the assistant's: the marker and the summary of the whole history. */
  lemma PrefixSays(cfg: Settings, ms: seq<Message>)
    ensures forall m :: m in Prefix(cfg, ms) ==> m.role == "assistant"
    ensures Prefix(cfg, ms)[0].content == OMISSION_MARKER && Prefix(cfg, ms)[1].content == Summary(cfg.route, ms)
  {
  }

  lemma NamesDiffer(a: Intent, b: Intent)
    requires NameOf(a) == NameOf(b)
    ensures a == b
  {
  }

  /** A comma stands between any two names. */
  lemma {:induction false} JoinedConcat(a: seq<Intent>, b: seq<Intent>)
    requires a != [] && b != []
    ensures Joined(a + b) == Joined(a) + ", " + Joined(b)
  {
    var n := |b| - 1;
    assert (a + b)[..|a| + n] == a + b[..n];
    if n == 0 {
      assert a + b[..n] == a;
    } else {
      JoinedConcat(a, b[..n]);
    }
  }

  // ----- What counts as a message -----

  /** Messages keep their order; only what is no message is dropped, and a missing role is the assistant's. */
  lemma {:induction false} NormalizeConcat(a: seq<Stored>, b: seq<Stored>)
    ensures Normalize(a + b) == Normalize(a) + Normalize(b)
  {
    if b == [] {
      assert a + b == a;
    } else {
      assert (a + b)[..|a + b| - 1] == a + b[..|b| - 1];
      NormalizeConcat(a, b[..|b| - 1]);
    }
  }

  lemma NormalizeOne(stored: Stored)
    ensures Normalize([stored]) ==
      match stored
      case NotAMessage => []
      case Entry(role, content) => [Message(if role == "" then "assistant" else role, content)]
  {
    assert [stored][..0] == [];
  }

  // ----- Idempotence -----

  /** A packed history as it is stored again. */
  function Store(ms: seq<Message>): (history: seq<Stored>)
    ensures |history| == |ms|
  {
    if ms == [] then [] else Store(ms[..|ms| - 1]) + [Entry(ms[|ms| - 1].role, ms[|ms| - 1].content)]
  }

  lemma {:induction false} StoredMessagesNormalizeBack(ms: seq<Message>)
    requires forall m :: m in ms ==> m.role != ""
    ensures Normalize(Store(ms)) == ms
  {
    if ms != [] {
      StoredMessagesNormalizeBack(ms[..|ms| - 1]);
      assert Store(ms)[..|ms| - 1] == Store(ms[..|ms| - 1]);
      assert ms[|ms| - 1] in ms;
    }
  }

  lemma {:induction false} KeptRolesAreSet(messages: seq<Message>, n: nat, budget: Budget, shorten: Shortener)
    requires n <= |messages|
    requires forall m :: m in messages ==> m.role != ""
    ensures forall m :: m in Keep(messages, n, budget, shorten) ==> m.role != ""
  {
    if n != 0 && budget.Open() {
      KeptRolesAreSet(messages, n - 1, budget.After(shorten(messages[n - 1].content, budget.Room())), shorten);
    }
  }

  lemma PackedRolesAreSet(cfg: Settings, ms: seq<Message>, prefix: seq<Message>)
    requires forall m :: m in ms || m in prefix ==> m.role != ""
    ensures forall m :: m in PackBeside(cfg, ms, prefix) ==> m.role != ""
  {
    KeptRolesAreSet(ms, |ms|, ContentBudget(cfg, prefix), Truncate);
  }

  /** Packing what was packed changes nothing, unless a cut left one character beside the marker. */
  lemma PackIsIdempotent(cfg: Settings, history: History)
    requires !CutLeavesOneCharacter(cfg, Normalize(history), Prefix(cfg, Normalize(history)))
    ensures |Pack(cfg, history)| <= MAX_MESSAGES && Pack(cfg, Store(Pack(cfg, history))) == Pack(cfg, history)
  {
    var ms := Normalize(history);
    PackedHistoryFitsIff(cfg, history);
    PackedRolesAreSet(cfg, ms, Prefix(cfg, ms));
    StoredMessagesNormalizeBack(Pack(cfg, history));
  }

  // ----- A history that is packed one over its limit -----

  function Letters(n: nat): (text: string)
    ensures |text| == n
  {
    seq(n, i => 'a')
  }

  /** The newer message leaves 50 characters of the budget, and the older one is longer than that. */
  lemma OverfullBeside(cfg: Settings, older: Message, newer: Message, prefix: seq<Message>)
    requires |prefix| == 2 && LeavesRoom(cfg, prefix)
    requires cfg.CharLimit() == 1000 && cfg.TokenLimit() == 6000
    requires TotalChars(prefix) + |newer.content| + MISSED == 1000 && |newer.content| > 0 && |older.content| == 1000
    ensures TotalChars(PackBeside(cfg, [older, newer], prefix)) == 1001
  {
    var ms, budget := [older, newer], ContentBudget(cfg, prefix);
    TwoMessages(older, newer);
    TokensAreFewer(prefix);
    TokensAreFewer([newer]);
    OneMessage(newer);
    var left := budget.After(newer.content);
    assert left.chars == MISSED && left.Room() == MISSED;
    assert CutLimit(ms, 1, left) == MISSED;
    assert CutLimit(ms, 2, budget) == MISSED;
    PackedBesideFitsIff(cfg, ms, prefix);
    TokensAreFewer(PackBeside(cfg, ms, prefix));
  }

  lemma {:induction false} TokensAreFewer(ms: seq<Message>)
    ensures TotalTokens(ms) <= TotalChars(ms)
  {
    if ms != [] {
      TokensAreFewer(ms[..|ms| - 1]);
    }
  }

  /** One such history. */
  lemma PackedOneOverLimit(cfg: Settings) returns (history: History)
    requires cfg.CharLimit() == 1000 && cfg.TokenLimit() == 6000
    ensures TotalChars(Pack(cfg, history)) == 1001
  {
    var older, newer := OverfullMessages(cfg);
    history := [Entry(older.role, older.content), Entry(newer.role, newer.content)];
    TwoEntries(older, newer);
    PrefixLeavesRoom(cfg, [older, newer]);
    OverfullBeside(cfg, older, newer, Prefix(cfg, [older, newer]));
  }

  lemma OverfullMessages(cfg: Settings) returns (older: Message, newer: Message)
    requires cfg.CharLimit() == 1000
    ensures older.role == newer.role == "assistant" && |older.content| == 1000 && |newer.content| > 0
    ensures TotalChars(Prefix(cfg, [older, newer])) + |newer.content| + MISSED == 1000
  {
    older := Message("assistant", Letters(1000));
    var draft := Message("assistant", "");
    PrefixIsShort(cfg, [older, draft]);
    newer := Message("assistant", Letters(1000 - MISSED - TotalChars(Prefix(cfg, [older, draft]))));
    SameSummary(cfg.route, older, draft, newer);
  }

  lemma TwoEntries(a: Message, b: Message)
    requires a.role == b.role == "assistant"
    ensures Normalize([Entry(a.role, a.content), Entry(b.role, b.content)]) == [a, b]
  {
    var history := [Entry(a.role, a.content), Entry(b.role, b.content)];
    assert history[..1] == [Entry(a.role, a.content)] && history[..1][..0] == [];
    assert Normalize(history[..1]) == [a];
  }

  lemma PrefixIsShort(cfg: Settings, ms: seq<Message>)
    requires |ms| < 0x8000_0000_0000_0000
    ensures TotalChars(Prefix(cfg, ms)) <= 336
  {
    OmissionMarkerLength();
    SummaryIsShort(cfg.route, ms);
    TwoMessages(Prefix(cfg, ms)[0], Prefix(cfg, ms)[1]);
  }

  /** The summary names no intents of assistant messages. */
  lemma SameSummary(route: string -> Option<Intent>, a: Message, b: Message, c: Message)
    requires a.role == b.role == c.role == "assistant"
    ensures Summary(route, [a, b]) == Summary(route, [a, c])
  {
    assert [a, b][..1] == [a] && [a, c][..1] == [a] && [a][..0] == [];
    assert Users([a]) == [];
    assert Users([a, b]) == [] && Users([a, c]) == [];
  }
}
