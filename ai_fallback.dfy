/**
 * The rule-based side of the AI service: the keyword classifier used when
 * the language model is unavailable, the fallback retry advice, and the
 * clean-up of a model reply before it is parsed as JSON. A regular
 * expression `/a|b|c/i` is an ASCII case-insensitive test for any of the
 * words, and `\d{3,}` is three ASCII digits in a row.
 */
module AiFallback {
  import T = Tasks
  import opened Text
  import WorkerManagerModel

  datatype Complexity = Low | Medium | High

  /** The tags the classifier can attach, declared in the order it pushes them. */
  datatype Tag = Email | Payment | Financial | Urgent | Bulk

  /** A tag's place in the push order. */
  function TagRank(t: Tag): nat {
    match t
    case Email => 0
    case Payment => 1
    case Financial => 2
    case Urgent => 3
    case Bulk => 4
  }

  /** A tag's text. */
  function TagName(t: Tag): string {
    match t
    case Email => "email"
    case Payment => "payment"
    case Financial => "financial"
    case Urgent => "urgent"
    case Bulk => "bulk"
  }

  datatype Analysis = Analysis(
    complexity: Complexity,
    estimatedTime: nat,
    recommendedPriority: T.Priority,
    reasoning: string,
    tags: seq<Tag>)

  datatype RetryAdvice = RetryAdvice(shouldRetry: bool, waitSeconds: nat, reasoning: string)

  const UrgentWords: seq<string> := ["urgent", "critical", "emergency", "asap", "immediate"]
  const ScaleWords: seq<string> := ["bulk", "mass", "all", "many"]
  const CleanupWords: seq<string> := ["clean", "archive", "remove", "delete"]
  const DemoteWords: seq<string> := ["clean", "archive", "backup"]
  const EmailWords: seq<string> := ["email", "mail", "send"]
  const PaymentWords: seq<string> := ["payment", "transaction", "refund"]
  const UrgentTagWords: seq<string> := ["urgent", "critical"]

  /** `/w1|w2|.../i.test(s)`. */
  predicate MatchesAny(s: string, words: seq<string>) {
    exists k | 0 <= k < |words| :: ContainsIgnoringCase(s, words[k])
  }

  predicate IsUrgent(title: string) {
    MatchesAny(title, UrgentWords)
  }

  predicate HasScale(title: string) {
    HasDigitRun(title) || MatchesAny(title, ScaleWords)
  }

  /** High for urgent or large-scale work, low for clean-up work, medium
      otherwise; the clean-up test runs on the lower-cased title. */
  function ComplexityOf(title: string): (c: Complexity)
    ensures c == High <==> IsUrgent(title) || HasScale(title)
    ensures c == Low <==> !IsUrgent(title) && !HasScale(title) && MatchesAny(title, CleanupWords)
  {
    var lowered := Lower(title);
    MatchesLowered(title, CleanupWords);
    if IsUrgent(title) || HasScale(title) then High
    else if MatchesAny(lowered, CleanupWords) then Low
    else Medium
  }

  /** Urgent titles are raised to high, and other titles naming clean,
      archive or backup work lowered to low; the rest keep their priority. */
  function RecommendedPriority(title: string, priority: T.Priority): (p: T.Priority)
    ensures IsUrgent(title) ==> p == T.High
    ensures !IsUrgent(title) && MatchesAny(title, DemoteWords) ==> p == T.Low
    ensures !IsUrgent(title) && !MatchesAny(title, DemoteWords) ==> p == priority
  {
    var lowered := Lower(title);
    MatchesLowered(title, DemoteWords);
    if IsUrgent(title) && priority != T.High then T.High
    else if !IsUrgent(title) && MatchesAny(lowered, DemoteWords) then T.Low
    else priority
  }

  function EstimatedTime(c: Complexity): nat {
    if c == High then 10 else if c == Medium then 15 else 20
  }

  /** The tags of a title, pushed in a fixed order. */
  function Tags(title: string): seq<Tag> {
    var lowered := Lower(title);
    TagsFor(MatchesAny(lowered, EmailWords), MatchesAny(lowered, PaymentWords),
            MatchesAny(lowered, UrgentTagWords), HasDigitRun(lowered))
  }

  /** Testing the lower-cased title with `/i` is testing the title. */
  lemma MatchesLowered(title: string, words: seq<string>)
    ensures MatchesAny(Lower(title), words) <==> MatchesAny(title, words)
  {
    LowerIdempotent(title);
  }

  /** `getFallbackAnalysis`: the keyword classifier. */
  function GetFallbackAnalysis(title: string, priority: T.Priority): (a: Analysis)
    ensures IsUrgent(title) ==> a.recommendedPriority == T.High
    ensures !IsUrgent(title) && MatchesAny(title, DemoteWords) ==> a.recommendedPriority == T.Low
    ensures !IsUrgent(title) && !MatchesAny(title, DemoteWords) ==> a.recommendedPriority == priority
    ensures a.complexity == High <==> IsUrgent(title) || HasScale(title)
    ensures a.complexity == Low <==> !IsUrgent(title) && !HasScale(title) && MatchesAny(title, CleanupWords)
    ensures a.estimatedTime == (match a.complexity case High => 10 case Medium => 15 case Low => 20)
    ensures a.reasoning == (if IsUrgent(title) then "Fallback: Urgent task detected" else "Fallback: Standard task")
    ensures a.tags == Tags(title)
  {
    var complexity := ComplexityOf(title);
    Analysis(
      complexity,
      EstimatedTime(complexity),
      RecommendedPriority(title, priority),
      if IsUrgent(title) then "Fallback: Urgent task detected" else "Fallback: Standard task",
      Tags(title))
  }

  /** Ranks strictly increase along `tags`. */
  predicate Ascending(tags: seq<Tag>) {
    forall i, j :: 0 <= i < j < |tags| ==> TagRank(tags[i]) < TagRank(tags[j])
  }

  /** Every rank along `tags` is below `bound`. */
  predicate RanksBelow(tags: seq<Tag>, bound: nat) {
    forall i :: 0 <= i < |tags| ==> TagRank(tags[i]) < bound
  }

  /** `if (cond) tags.push(t)`: pushing a tag ranked above everything pushed
      so far keeps the run ascending. */
  function PushWhen(tags: seq<Tag>, cond: bool, t: Tag): (r: seq<Tag>)
    requires Ascending(tags) && RanksBelow(tags, TagRank(t))
    ensures Ascending(r) && RanksBelow(r, TagRank(t) + 1)
    ensures forall x :: x in r <==> x in tags || (cond && x == t)
  {
    if cond then tags + [t] else tags
  }

  /** Lower-casing keeps digits where they are, so a digit run survives it. */
  lemma DigitRunLowered(title: string)
    ensures HasDigitRun(Lower(title)) <==> HasDigitRun(title)
  {
    var lowered := Lower(title);
    forall i | 0 <= i < |title|
      ensures IsDigit(lowered[i]) <==> IsDigit(title[i])
    {
    }
  }

  /** The tags pushed for the outcomes of the four keyword tests: in the
      fixed order email, payment, financial, urgent, bulk, each at most once,
      each present exactly when its test holds, and payment and financial
      always together. */
  function TagsFor(email: bool, payment: bool, urgent: bool, bulk: bool): (tags: seq<Tag>)
    ensures Ascending(tags)
  {
    var withEmail := PushWhen([], email, Email);
    var withPayment := PushWhen(PushWhen(withEmail, payment, Payment), payment, Financial);
    var withUrgent := PushWhen(withPayment, urgent, Urgent);
    PushWhen(withUrgent, bulk, Bulk)
  }

  /** Each tag is pushed exactly when its keyword test holds; payment and
      financial always come together. */
  lemma TagsForExact(email: bool, payment: bool, urgent: bool, bulk: bool)
    ensures var tags := TagsFor(email, payment, urgent, bulk);
      && (Email in tags <==> email)
      && (Payment in tags <==> payment)
      && (Financial in tags <==> payment)
      && (Urgent in tags <==> urgent)
      && (Bulk in tags <==> bulk)
  {
    var withEmail := PushWhen([], email, Email);
    var withPayment := PushWhen(withEmail, payment, Payment);
    var withFinancial := PushWhen(withPayment, payment, Financial);
    var withUrgent := PushWhen(withFinancial, urgent, Urgent);
    var tags := PushWhen(withUrgent, bulk, Bulk);
    assert TagsFor(email, payment, urgent, bulk) == tags;
    assert Email in withEmail <==> email;
    assert Payment in withPayment <==> payment;
    assert Email in withPayment <==> email;
    assert Financial in withFinancial <==> payment;
  }

  /** The tags of a title are ordered and exact: each is present exactly when
      the title matches its keywords. */
  lemma TagsOrderedAndExact(title: string)
    ensures var tags := Tags(title);
      && Ascending(tags)
      && (Email in tags <==> MatchesAny(title, EmailWords))
      && (Payment in tags <==> MatchesAny(title, PaymentWords))
      && (Financial in tags <==> Payment in tags)
      && (Urgent in tags <==> MatchesAny(title, UrgentTagWords))
      && (Bulk in tags <==> HasDigitRun(title))
  {
    MatchesLowered(title, EmailWords);
    MatchesLowered(title, PaymentWords);
    MatchesLowered(title, UrgentTagWords);
    DigitRunLowered(title);
    var lowered := Lower(title);
    TagsForExact(MatchesAny(lowered, EmailWords), MatchesAny(lowered, PaymentWords),
                 MatchesAny(lowered, UrgentTagWords), HasDigitRun(lowered));
  }

  /** An urgent title is never recommended a priority other than high, and a
      title without any keyword keeps its priority. */
  lemma RecommendationNeverDemotesUrgent(title: string, priority: T.Priority)
    ensures IsUrgent(title) ==> GetFallbackAnalysis(title, priority).recommendedPriority == T.High
    ensures GetFallbackAnalysis(title, priority).recommendedPriority != priority ==>
      IsUrgent(title) || MatchesAny(title, DemoteWords)
  {
  }

  const ExampleTitle: string := "URGENT: Process 5000 payment refunds"
  const ExampleTitleLowered: string := "urgent: process 5000 payment refunds"

  lemma ExampleLowered()
    ensures Lower(ExampleTitle) == "urgent: process 5000 payment refunds"
  {
  }

  /** The lower-cased example mentions urgency and payment and holds a run of
      three digits. */
  lemma ExampleMentions()
    ensures Contains(ExampleTitleLowered, "urgent")
    ensures Contains(ExampleTitleLowered, "payment")
    ensures HasDigitRun(ExampleTitleLowered)
  {
    var lowered := ExampleTitleLowered;
    assert lowered[..6] == "urgent";
    assert OccursAt(lowered, "urgent", 0);
    assert lowered[21..28] == "payment";
    assert OccursAt(lowered, "payment", 21);
    assert IsDigit(lowered[16]) && IsDigit(lowered[17]) && IsDigit(lowered[18]);
  }

  /** The lower-cased example does not mention "email". */
  lemma ExampleLacksEmail()
    ensures !Contains(ExampleTitleLowered, "email")
  {
    AbsentFirstPair(ExampleTitleLowered, "email");
  }

  /** The lower-cased example does not mention "mail". */
  lemma ExampleLacksMail()
    ensures !Contains(ExampleTitleLowered, "mail")
  {
    AbsentFirstPair(ExampleTitleLowered, "mail");
  }

  /** The lower-cased example does not mention "send". */
  lemma ExampleLacksSend()
    ensures !Contains(ExampleTitleLowered, "send")
  {
    AbsentFirstPair(ExampleTitleLowered, "send");
  }

  /** The example title's keyword tests: urgent, payment and a digit run, but
      no mail keyword. */
  lemma ExampleKeywords()
    ensures IsUrgent(ExampleTitle)
    ensures MatchesAny(Lower(ExampleTitle), UrgentTagWords)
    ensures MatchesAny(Lower(ExampleTitle), PaymentWords)
    ensures HasDigitRun(Lower(ExampleTitle))
    ensures !MatchesAny(Lower(ExampleTitle), EmailWords)
  {
    var lowered := Lower(ExampleTitle);
    ExampleLowered();
    LowerIdempotent(ExampleTitle);
    ExampleMentions();
    ExampleLacksEmail();
    ExampleLacksMail();
    ExampleLacksSend();
    assert ContainsIgnoringCase(ExampleTitle, UrgentWords[0]);
    assert ContainsIgnoringCase(lowered, UrgentTagWords[0]);
    assert ContainsIgnoringCase(lowered, PaymentWords[0]);
  }

  /** The example title is tagged payment, financial, urgent and bulk. */
  lemma ExampleTags()
    ensures Tags(ExampleTitle) == [Payment, Financial, Urgent, Bulk]
  {
    ExampleKeywords();
    assert Tags(ExampleTitle) == TagsFor(false, true, true, true);
  }

  /** The worked example 'URGENT: Process 5000 payment refunds': high
      complexity, ten seconds, high priority, and the tags payment,
      financial, urgent and bulk, whatever the priority given. */
  lemma UrgentPaymentExample(priority: T.Priority)
    ensures var a := GetFallbackAnalysis(ExampleTitle, priority);
      && a.complexity == High && a.estimatedTime == 10
      && a.recommendedPriority == T.High
      && a.reasoning == "Fallback: Urgent task detected"
      && a.tags == [Payment, Financial, Urgent, Bulk]
  {
    ExampleKeywords();
    ExampleTags();
  }

  /** The fallback of `shouldRetry`: retry while the attempt number is below
      three, after 2^attempt seconds. */
  function FallbackRetry(attemptNumber: nat): (a: RetryAdvice)
    ensures a.shouldRetry <==> attemptNumber < 3
    ensures a.waitSeconds == T.Pow2(attemptNumber)
    ensures a.reasoning == "Exponential backoff (fallback)"
  {
    RetryAdvice(attemptNumber < 3, T.Pow2(attemptNumber), "Exponential backoff (fallback)")
  }

  /** The fallback advice for the attempt that follows a task's failure agrees
      with the pool manager's decision on whether to retry, and waits the same
      number of seconds. */
  lemma FallbackAgreesWithManager(retryCount: nat)
    ensures var d := WorkerManagerModel.RetryDecision(retryCount);
      var a := FallbackRetry(retryCount + 1);
      && (a.shouldRetry <==> d.Retry?)
      && (d.Retry? ==> d.delayMs == a.waitSeconds * 1000)
  {
  }

  /** The whitespace `String.prototype.trim` removes, restricted to the
      characters a model reply plausibly holds. */
  predicate IsSpace(c: char) {
    c == ' ' || c == '\t' || c == '\n' || c == '\r' || c == '\U{0B}' || c == '\U{0C}'
    || c == '\U{A0}' || c == '\U{FEFF}'
  }

  function TrimStart(s: string): (r: string)
    ensures |r| <= |s| && r == s[|s| - |r|..]
    ensures forall i :: 0 <= i < |s| - |r| ==> IsSpace(s[i])
    ensures |r| > 0 ==> !IsSpace(r[0])
  {
    if |s| > 0 && IsSpace(s[0]) then
      var r := TrimStart(s[1..]);
      assert s[1..][|s| - 1 - |r|..] == s[|s| - |r|..];
      assert forall i :: 1 <= i < |s| - |r| ==> IsSpace(s[i]) by {
        forall i | 1 <= i < |s| - |r|
          ensures IsSpace(s[i])
        {
          assert s[i] == s[1..][i - 1];
        }
      }
      r
    else s
  }

  function TrimEnd(s: string): (r: string)
    ensures |r| <= |s| && r == s[..|r|]
    ensures forall i :: |r| <= i < |s| ==> IsSpace(s[i])
    ensures |r| > 0 ==> !IsSpace(r[|r| - 1])
  {
    if |s| > 0 && IsSpace(s[|s| - 1]) then
      var r := TrimEnd(s[..|s| - 1]);
      assert s[..|s| - 1][..|r|] == s[..|r|];
      assert forall i :: |r| <= i < |s| - 1 ==> IsSpace(s[i]) by {
        forall i | |r| <= i < |s| - 1
          ensures IsSpace(s[i])
        {
          assert s[i] == s[..|s| - 1][i];
        }
      }
      r
    else s
  }

  /** `r` is `s[a..b]`, and only whitespace lies outside `a..b`. */
  predicate TrimmedBetween(s: string, r: string, a: int, b: int) {
    && 0 <= a <= b <= |s| && r == s[a..b]
    && (forall i :: 0 <= i < a ==> IsSpace(s[i]))
    && (forall i :: b <= i < |s| ==> IsSpace(s[i]))
  }

  /** `trim()`: the slice of `s` between its leading and trailing whitespace. */
  function Trim(s: string): (r: string)
    ensures exists a, b :: TrimmedBetween(s, r, a, b)
    ensures |r| > 0 ==> !IsSpace(r[0]) && !IsSpace(r[|r| - 1])
  {
    var front := TrimStart(s);
    TrimmedSlice(s, front, TrimEnd(front));
    TrimEnd(front)
  }

  /** Trimming the end of the trimmed front leaves a slice of `s` with only
      whitespace cut on either side. */
  lemma TrimmedSlice(s: string, front: string, r: string)
    requires |front| <= |s| && front == s[|s| - |front|..]
    requires forall i :: 0 <= i < |s| - |front| ==> IsSpace(s[i])
    requires |front| > 0 ==> !IsSpace(front[0])
    requires |r| <= |front| && r == front[..|r|]
    requires forall i :: |r| <= i < |front| ==> IsSpace(front[i])
    requires |r| > 0 ==> !IsSpace(r[|r| - 1])
    ensures TrimmedBetween(s, r, |s| - |front|, |s| - |front| + |r|)
    ensures |r| > 0 ==> !IsSpace(r[0]) && !IsSpace(r[|r| - 1])
  {
    var a := |s| - |front|;
    var b := a + |r|;
    assert front == s[a..];
    assert r == front[..|r|];
    assert r == s[a..b];
    forall i | b <= i < |s|
      ensures IsSpace(s[i])
    {
      assert s[i] == front[i - a];
    }
    if |r| > 0 {
      assert r[0] == front[0];
    }
  }

  /** Trimming a trimmed string changes nothing. */
  lemma TrimIdempotent(s: string)
    ensures Trim(Trim(s)) == Trim(s)
  {
  }

  /** `s.replace(/m\n?/g, '')`: every occurrence of the marker `m`, found
      left to right without overlap, is removed together with one newline
      that directly follows it. */
  function RemoveMarker(s: string, m: string): string
    requires |m| > 0
    decreases |s|
  {
    if |s| == 0 then ""
    else if StartsWith(s, m) then
      var rest := s[|m|..];
      RemoveMarker(if |rest| > 0 && rest[0] == '\n' then rest[1..] else rest, m)
    else
      [s[0]] + RemoveMarker(s[1..], m)
  }

  /** The reply once trimmed, with its fence markers removed when it starts
      with one. */
  function Unfenced(clean: string): string {
    if StartsWith(clean, "```json") then RemoveMarker(RemoveMarker(clean, "```json"), "```")
    else if StartsWith(clean, "```") then RemoveMarker(clean, "```")
    else clean
  }

  /** The text handed to `JSON.parse`: the trimmed reply, with the code-fence
      markers removed when it starts with one, trimmed again. */
  function StripFences(reply: string): string {
    Trim(Unfenced(Trim(reply)))
  }

  /** Removing "```" leaves no "```" behind: removals cannot join backticks
      into a new fence. */
  lemma {:induction false} NoFenceAfterRemoval(s: string)
    ensures !Contains(RemoveMarker(s, "```"), "```")
    decreases |s|
  {
    var r := RemoveMarker(s, "```");
    if |s| == 0 {
    } else if StartsWith(s, "```") {
      var rest := s[3..];
      NoFenceAfterRemoval(if |rest| > 0 && rest[0] == '\n' then rest[1..] else rest);
    } else {
      var tail := RemoveMarker(s[1..], "```");
      assert r == [s[0]] + tail;
      NoFenceAfterRemoval(s[1..]);
      forall i | 0 <= i <= |r| - 3
        ensures !OccursAt(r, "```", i)
      {
        if i == 0 {
        } else {
          assert r[i..i + 3] == tail[i - 1..i + 2];
          assert !OccursAt(tail, "```", i - 1);
        }
      }
    }
  }

  /** Text without the marker passes through unchanged. */
  lemma {:induction false} RemoveMarkerAbsent(s: string, m: string)
    requires |m| > 0 && !Contains(s, m)
    ensures RemoveMarker(s, m) == s
    decreases |s|
  {
    if |s| > 0 {
      if StartsWith(s, m) {
        assert OccursAt(s, m, 0);
      }
      assert s[1..|s|] == s[1..];
      if Contains(s[1..], m) {
        ContainsInSlice(s, 1, |s|, m);
      }
      RemoveMarkerAbsent(s[1..], m);
      assert s == [s[0]] + s[1..];
    }
  }

  /** A leading marker goes, together with one newline right after it. */
  lemma RemoveMarkerLeading(m: string, s: string)
    requires |m| > 0
    ensures RemoveMarker(m + s, m) == RemoveMarker(if |s| > 0 && s[0] == '\n' then s[1..] else s, m)
  {
    assert (m + s)[..|m|] == m;
    assert (m + s)[|m|..] == s;
  }

  /** No occurrence in the first `k` positions of `s` means none in the first
      `k - 1` positions of `s[1..]`. */
  lemma NoOccurrenceShifted(s: string, m: string, k: nat)
    requires 0 < k <= |s|
    requires forall i :: 0 <= i < k ==> !OccursAt(s, m, i)
    ensures forall i :: 0 <= i < k - 1 ==> !OccursAt(s[1..], m, i)
  {
    forall i | 0 <= i < k - 1
      ensures !OccursAt(s[1..], m, i)
    {
      assert !OccursAt(s, m, i + 1);
      if i + |m| <= |s[1..]| {
        assert s[1..][i..i + |m|] == s[i + 1..i + 1 + |m|];
      }
    }
  }

  /** Text in front of the first occurrence of the marker is kept as it is. */
  lemma {:induction false} RemoveMarkerKeepsPrefix(a: string, b: string, m: string)
    requires |m| > 0
    requires forall i :: 0 <= i < |a| ==> !OccursAt(a + b, m, i)
    ensures RemoveMarker(a + b, m) == a + RemoveMarker(b, m)
    decreases |a|
  {
    if |a| > 0 {
      var s := a + b;
      if StartsWith(s, m) {
        assert OccursAt(s, m, 0);
      }
      assert s[1..] == a[1..] + b;
      NoOccurrenceShifted(s, m, |a|);
      RemoveMarkerKeepsPrefix(a[1..], b, m);
      assert RemoveMarker(s, m) == [s[0]] + RemoveMarker(s[1..], m);
      assert s[0] == a[0] && [a[0]] + a[1..] == a;
      assert a + RemoveMarker(b, m) == [a[0]] + (a[1..] + RemoveMarker(b, m));
    } else {
      assert a + b == b;
    }
  }

  /** The first marker goes with its optional newline; the text before it is
      kept, and the removal goes on after it. */
  lemma RemoveMarkerAtFirst(a: string, m: string, rest: string)
    requires |m| > 0
    requires forall i :: 0 <= i < |a| ==> !OccursAt(a + (m + rest), m, i)
    ensures RemoveMarker(a + (m + rest), m)
      == a + RemoveMarker(if |rest| > 0 && rest[0] == '\n' then rest[1..] else rest, m)
  {
    RemoveMarkerKeepsPrefix(a, m + rest, m);
    RemoveMarkerLeading(m, rest);
  }

  /** A body without fences followed by a closing fence on its own line: the
      fence goes, the body and the newline before the fence stay. */
  lemma ClosingFenceRemoved(body: string)
    requires !Contains(body, "```")
    ensures RemoveMarker(body + "\n```", "```") == body + "\n"
  {
    var t := body + "\n```";
    var a := body + "\n";
    assert t == a + ("```" + "");
    forall i | 0 <= i < |a|
      ensures !OccursAt(t, "```", i)
    {
      if i + 3 <= |body| {
        assert t[i..i + 3] == body[i..i + 3];
        assert !OccursAt(body, "```", i);
      } else if i + 3 <= |t| {
        assert t[i..i + 3][|body| - i] == t[|body|] == '\n';
      }
    }
    RemoveMarkerAtFirst(a, "```", "");
  }

  /** A body without fences, then a closing fence, holds no "```json". */
  lemma NoJsonMarkerBeforeClosing(body: string)
    requires !Contains(body, "```")
    ensures !Contains(body + "\n```", "```json")
  {
    var t := body + "\n```";
    forall i | 0 <= i <= |t| - 7
      ensures !OccursAt(t, "```json", i)
    {
      assert body[i..i + 3] == t[i..i + 3] == t[i..i + 7][..3];
      assert !OccursAt(body, "```", i);
      assert "```json"[..3] == "```";
    }
  }

  /** Trimming ignores one trailing newline. */
  lemma TrimDropsTrailingNewline(s: string)
    ensures Trim(s + "\n") == Trim(s)
  {
    TrimStartAppendSpace(s, '\n');
    var front := TrimStart(s);
    if front != "" {
      assert (front + "\n")[..|front|] == front;
    }
  }

  /** Appending whitespace after a non-blank string survives `TrimStart`. */
  lemma {:induction false} TrimStartAppendSpace(s: string, c: char)
    requires IsSpace(c)
    ensures TrimStart(s + [c]) == if TrimStart(s) == "" then "" else TrimStart(s) + [c]
    decreases |s|
  {
    if |s| > 0 {
      assert (s + [c])[0] == s[0];
      if IsSpace(s[0]) {
        assert (s + [c])[1..] == s[1..] + [c];
        TrimStartAppendSpace(s[1..], c);
      }
    }
  }

  /** A string that neither starts nor ends with whitespace is already trimmed. */
  lemma TrimOfUnspaced(s: string)
    requires |s| > 0 && !IsSpace(s[0]) && !IsSpace(s[|s| - 1])
    ensures Trim(s) == s
  {
  }

  /** Unfencing `"```json\n" + body + "\n```"` leaves the body and the
      newline in front of the closing fence. */
  lemma JsonFenceUnfenced(body: string)
    requires !Contains(body, "```")
    ensures Unfenced("```json\n" + body + "\n```") == body + "\n"
  {
    var tail := body + "\n```";
    var reply := "```json\n" + body + "\n```";
    assert reply == "```json" + ("\n" + tail);
    assert StartsWith(reply, "```json");
    RemoveMarkerLeading("```json", "\n" + tail);
    assert ("\n" + tail)[1..] == tail;
    NoJsonMarkerBeforeClosing(body);
    RemoveMarkerAbsent(tail, "```json");
    ClosingFenceRemoved(body);
  }

  /** Unfencing `"```\n" + body + "\n```"` leaves the body and the newline
      in front of the closing fence. */
  lemma PlainFenceUnfenced(body: string)
    requires !Contains(body, "```")
    ensures Unfenced("```\n" + body + "\n```") == body + "\n"
  {
    var tail := body + "\n```";
    var reply := "```\n" + body + "\n```";
    assert reply == "```" + ("\n" + tail);
    assert reply[3] == '\n';
    assert !StartsWith(reply, "```json");
    assert StartsWith(reply, "```");
    RemoveMarkerLeading("```", "\n" + tail);
    assert ("\n" + tail)[1..] == tail;
    ClosingFenceRemoved(body);
  }

  /** A fenced body comes back trimmed: `"```json\n" + body + "\n```"` and
      `"```\n" + body + "\n```"` both clean to the trimmed body when the
      body holds no fence of its own. */
  lemma FencedReplyRoundTrip(body: string)
    requires !Contains(body, "```")
    ensures StripFences("```json\n" + body + "\n```") == Trim(body)
    ensures StripFences("```\n" + body + "\n```") == Trim(body)
  {
    var json := "```json\n" + body + "\n```";
    var plain := "```\n" + body + "\n```";
    TrimOfUnspaced(json);
    TrimOfUnspaced(plain);
    JsonFenceUnfenced(body);
    PlainFenceUnfenced(body);
    TrimDropsTrailingNewline(body);
  }

  /** Trimming cannot create an occurrence. */
  lemma TrimKeepsAbsence(s: string, p: string)
    requires !Contains(s, p)
    ensures !Contains(Trim(s), p)
  {
    var a, b :| 0 <= a <= b <= |s| && Trim(s) == s[a..b];
    if Contains(s[a..b], p) {
      ContainsInSlice(s, a, b, p);
    }
  }

  /** Text that does not start with a fence is not unfenced. */
  lemma UnfencedUnchanged(clean: string)
    requires !StartsWith(clean, "```")
    ensures Unfenced(clean) == clean
  {
    assert "```json"[..3] == "```";
    if |clean| >= 7 {
      assert clean[..7][..3] == clean[..3];
    }
  }

  /** Unfencing text that starts with a fence leaves no "```". */
  lemma UnfencedHasNoFence(clean: string)
    requires StartsWith(clean, "```")
    ensures !Contains(Unfenced(clean), "```")
  {
    if StartsWith(clean, "```json") {
      NoFenceAfterRemoval(RemoveMarker(clean, "```json"));
    } else {
      NoFenceAfterRemoval(clean);
    }
  }

  /** A fenced reply loses every "```"; a reply not starting with one is only
      trimmed. */
  lemma StripFencesEffect(reply: string)
    ensures StartsWith(Trim(reply), "```") ==> !Contains(StripFences(reply), "```")
    ensures !StartsWith(Trim(reply), "```") ==> StripFences(reply) == Trim(reply)
  {
    var clean := Trim(reply);
    if StartsWith(clean, "```") {
      UnfencedHasNoFence(clean);
      TrimKeepsAbsence(Unfenced(clean), "```");
    } else {
      UnfencedUnchanged(clean);
      TrimIdempotent(reply);
    }
  }

  /** A reply that unfences to a body and one newline cleans to the body,
      trimmed. */
  lemma CleansTo(reply: string, body: string)
    requires Unfenced(Trim(reply)) == body + "\n"
    ensures StripFences(reply) == Trim(body)
  {
    TrimDropsTrailingNewline(body);
  }

  /** A reply that trims to a body without fences of its own between
      "```json" on its own line and a closing "```" on its own line cleans to
      that body, trimmed. */
  lemma StripFencesJsonBody(reply: string, body: string)
    requires Trim(reply) == "```json\n" + body + "\n```" && !Contains(body, "```")
    ensures StripFences(reply) == Trim(body)
  {
    JsonFenceUnfenced(body);
    CleansTo(reply, body);
  }

  /** A reply that trims to a body without fences of its own between "```"
      on its own line and a closing "```" on its own line cleans to that
      body, trimmed. */
  lemma StripFencesPlainBody(reply: string, body: string)
    requires Trim(reply) == "```\n" + body + "\n```" && !Contains(body, "```")
    ensures StripFences(reply) == Trim(body)
  {
    PlainFenceUnfenced(body);
    CleansTo(reply, body);
  }

  /** A cleaned reply is already trimmed and does not start with a fence. */
  lemma StripFencesIsClean(reply: string)
    ensures Trim(StripFences(reply)) == StripFences(reply)
    ensures !StartsWith(StripFences(reply), "```")
  {
    TrimIdempotent(Unfenced(Trim(reply)));
    StripFencesEffect(reply);
    var r := StripFences(reply);
    if StartsWith(r, "```") {
      assert OccursAt(r, "```", 0);
    }
  }

  /** Cleaning a cleaned reply changes nothing. */
  lemma StripFencesIdempotent(reply: string)
    ensures StripFences(StripFences(reply)) == StripFences(reply)
  {
    var r := StripFences(reply);
    StripFencesIsClean(reply);
    StripFencesEffect(r);
  }

  /** What `analyzeTask` hands back: the cleaned reply text that goes to
      `JSON.parse`, or the keyword analysis. */
  datatype AnalysisResult = ModelReply(json: string) | Fallback(analysis: Analysis)

  /** `analyzeTask`. `reply` is the model's answer, `None` when there is no
      answer or it does not parse as JSON. Without a client, or without a
      usable answer, the keyword analysis is returned. */
  function AnalyzeTask(hasClient: bool, reply: T.Option<string>, title: string, priority: T.Priority): (r: AnalysisResult)
    ensures r.Fallback? <==> !hasClient || reply.None?
    ensures r.Fallback? ==> r.analysis == GetFallbackAnalysis(title, priority)
    ensures r.ModelReply? ==> r.json == StripFences(reply.value)
  {
    if !hasClient || reply.None? then Fallback(GetFallbackAnalysis(title, priority))
    else ModelReply(StripFences(reply.value))
  }

  /** What `shouldRetry` hands back: the cleaned reply text, or the fallback advice. */
  datatype RetryResult = ModelAdvice(json: string) | FallbackAdvice(advice: RetryAdvice)

  /** `shouldRetry`, with `reply` as for `AnalyzeTask`. */
  function ShouldRetry(hasClient: bool, reply: T.Option<string>, attemptNumber: nat): (r: RetryResult)
    ensures r.FallbackAdvice? <==> !hasClient || reply.None?
    ensures r.FallbackAdvice? ==>
      r.advice.shouldRetry == (attemptNumber < 3) && r.advice.waitSeconds == T.Pow2(attemptNumber)
    ensures r.ModelAdvice? ==> r.json == StripFences(reply.value)
  {
    if !hasClient || reply.None? then FallbackAdvice(FallbackRetry(attemptNumber))
    else ModelAdvice(StripFences(reply.value))
  }

  datatype ModelInfo = ModelInfo(provider: string, model: string, status: string, capabilities: seq<string>)

  /** `getModelInfo`: the status is 'active' exactly when a client exists. */
  function GetModelInfo(hasClient: bool): (m: ModelInfo)
    ensures m.provider == "Groq" && m.model == "LLaMA 3 8B"
    ensures m.status == "active" <==> hasClient
    ensures !hasClient ==> m.status == "fallback"
    ensures m.capabilities == ["task-analysis", "retry-strategy"]
  {
    ModelInfo("Groq", "LLaMA 3 8B", if hasClient then "active" else "fallback", ["task-analysis", "retry-strategy"])
  }
}
