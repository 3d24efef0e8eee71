/** The reply and history engine of handler.py: the status map and how commands
    change it, the history window that `history`, `context` and `more` page
    through, grep over the history, and the first-match-wins rules that choose a
    reply. Every random draw is an explicit argument and regular-expression
    search is the function `matches(pattern, text)`. */
module MessageHandler {
  import opened Common
  import opened PyStrings
  import opened Utils

  // ---------------------------------------------------------------------------
  // Randomness

  /** random.randint(lo, hi) when the generator yields `pick`: ValueError on an
      empty range, otherwise a value of the range (every value is reachable,
      see RandIntReaches). */
  function RandInt(lo: int, hi: int, pick: nat): (r: Result<int>)
    ensures r.Err? <==> hi < lo
    ensures r.Err? ==> r.error == ValueError
    ensures r.Ok? ==> lo <= r.value <= hi
  {
    if hi < lo then Err(ValueError) else Ok(lo + pick % (hi - lo + 1))
  }

  lemma RandIntReaches(lo: int, hi: int, v: int)
    requires lo <= v <= hi
    ensures RandInt(lo, hi, (v - lo) as nat) == Ok(v)
  {
  }

  /** random.choice(pool) when the generator yields `pick`: IndexError on an
      empty pool. */
  function Choice<T>(pool: seq<T>, pick: nat): (r: Result<T>)
    ensures r.Err? <==> pool == []
    ensures r.Err? ==> r.error == IndexError
    ensures r.Ok? ==> r.value in pool
  {
    if pool == [] then Err(IndexError) else Ok(pool[pick % |pool|])
  }

  lemma ChoiceReaches<T>(pool: seq<T>, i: nat)
    requires i < |pool|
    ensures Choice(pool, i) == Ok(pool[i])
  {
  }

  // ---------------------------------------------------------------------------
  // Configuration and status

  /** What a reply group draws from, by its "type": "single" groups hold a pool
      of replies, "group" groups a pool of reply sets; a group of any other type
      has nothing get_random_reply can return. */
  datatype Replies = Single(pool: seq<string>) | Sets(sets: seq<seq<string>>) | Untyped

  /** One entry of reply_groups: its name (also its status key), its replies,
      its chance out of 100 and its optional forcing keyword. */
  datatype ReplyGroup = ReplyGroup(name: string, replies: Replies, chance: int, keyword: Option<string>)

  /** One entry of keywords: a pattern and the replies it may answer with. */
  datatype KeywordRule = KeywordRule(pattern: string, responses: seq<string>)

  /** reply_data, in configuration order. */
  datatype ReplyData = ReplyData(keywords: seq<KeywordRule>, groups: seq<ReplyGroup>)

  /** slice(start, stop) */
  datatype Span = Span(start: int, stop: int)

  /** The values the status map holds: booleans, integers and the slice of the
      last history shown. */
  datatype StatusValue = Flag(flag: bool) | Number(number: int) | Slice(span: Span)

  type Status = map<string, StatusValue>

  const ActiveKey: string := "active"
  const HistoryKey: string := "history"
  const LastHistoryKey: string := "last_history"
  const GrepStartKey: string := "grep_start"
  const MaxGrepKey: string := "max_grep"

  /** The keys __init__ writes before the group flags, in that order. */
  const EngineKeys: seq<string> := [ActiveKey, HistoryKey, LastHistoryKey, GrepStartKey, MaxGrepKey]

  /** Python truthiness of a status value. */
  predicate Truthy(v: StatusValue) {
    match v
    case Flag(b) => b
    case Number(n) => n != 0
    case Slice(_) => true
  }

  predicate SameKind(a: StatusValue, b: StatusValue) {
    (a.Flag? && b.Flag?) || (a.Number? && b.Number?) || (a.Slice? && b.Slice?)
  }

  /** A history window as get_history stores it. */
  predicate GoodSpan(w: Span) {
    0 <= w.start <= w.stop
  }

  /** The shape of the status map the engine relies on: its own keys with their
      kinds, and a flag for every reply group. */
  predicate WellFormed(status: Status, groups: seq<ReplyGroup>) {
    && ActiveKey in status && status[ActiveKey].Flag?
    && HistoryKey in status && status[HistoryKey].Flag?
    && LastHistoryKey in status && status[LastHistoryKey].Slice? && GoodSpan(status[LastHistoryKey].span)
    && GrepStartKey in status && status[GrepStartKey].Number? && status[GrepStartKey].number >= 0
    && MaxGrepKey in status && status[MaxGrepKey].Number? && status[MaxGrepKey].number >= 0
    && forall i :: 0 <= i < |groups| ==> groups[i].name in status && status[groups[i].name].Flag?
  }

  /** The names the status map reserves for values that are not flags. */
  predicate FlagName(name: string) {
    name != LastHistoryKey && name != GrepStartKey && name != MaxGrepKey
  }

  // ---------------------------------------------------------------------------
  // History windows (get_history)

  /** The slice get_history takes: slice(clamp(start, 0, total - size),
      clamp(start + size, size, total)). */
  function Window(total: nat, start: int, size: nat): (w: Span)
    ensures GoodSpan(w)
  {
    Span(Clamp(start, 0, total - size), Clamp(start + size, size, total))
  }

  /** lines[w.start:w.stop] for a window with 0 <= start <= stop. */
  function Lines(lines: seq<string>, w: Span): (r: seq<string>)
    requires GoodSpan(w)
    ensures |r| == Min(w.stop, |lines|) - Min(w.start, |lines|)
  {
    lines[Min(w.start, |lines|)..Min(w.stop, |lines|)]
  }

  /** What get_history shows and stores. */
  datatype Shown = Shown(lines: seq<string>, window: Span)

  /** get_history(start, size): a random start in [0, len - size] when none is
      given, which raises ValueError when there are fewer lines than `size`;
      then the clamped window, read and stored. */
  function History(lines: seq<string>, start: Option<int>, size: nat, pick: nat): (r: Result<Shown>)
    ensures r.Err? <==> start.None? && |lines| < size
    ensures r.Err? ==> r.error == ValueError
    ensures r.Ok? ==> GoodSpan(r.value.window) && r.value.lines == Lines(lines, r.value.window)
  {
    var first :- if start.Some? then Ok(start.value) else RandInt(0, |lines| - size, pick);
    var w := Window(|lines|, first, size);
    Ok(Shown(Lines(lines, w), w))
  }

  /** With at least `size` lines, every start shows exactly `size` lines, and the
      stored window lies inside the history and is `size` long. */
  lemma HistoryFull(lines: seq<string>, start: Option<int>, size: nat, pick: nat)
    requires |lines| >= size
    ensures History(lines, start, size, pick).Ok?
    ensures var h := History(lines, start, size, pick).value;
      && |h.lines| == size
      && 0 <= h.window.start <= h.window.stop <= |lines|
      && h.window.stop - h.window.start == size
  {
  }

  /** A start from which `size` lines remain shows exactly those lines. */
  lemma HistoryInRange(lines: seq<string>, start: int, size: nat, pick: nat)
    requires 0 <= start <= |lines| - size
    ensures History(lines, Some(start), size, pick) ==
      Ok(Shown(lines[start..start + size], Span(start, start + size)))
  {
  }

  /** A start too close to the end clamps back: 100 lines, start 95, size 10
      shows lines 90 to 99. */
  lemma HistoryClampsBack(lines: seq<string>, pick: nat)
    requires |lines| == 100
    ensures History(lines, Some(95), 10, pick) == Ok(Shown(lines[90..100], Span(90, 100)))
  {
  }

  /** With fewer lines than `size`, any given start shows the whole history and
      stores the window (0, size), whose stop lies past the last line. */
  lemma HistoryShort(lines: seq<string>, start: int, size: nat, pick: nat)
    requires |lines| < size
    ensures History(lines, Some(start), size, pick) == Ok(Shown(lines, Span(0, size)))
  {
    assert lines[0..|lines|] == lines;
  }

  /** `more` shows the window starting at the stored stop: the 10 lines after
      the last ones shown while there are 10 left, then the last 10. */
  lemma MorePagesForward(total: nat, last: Span)
    requires GoodSpan(last) && total >= 10
    ensures Window(total, last.stop, 10) ==
      Span(Min(last.stop, total - 10), Min(last.stop + 10, total))
    ensures last.stop <= total - 10 ==> Window(total, last.stop, 10).start == last.stop
  {
  }

  /** Once `more` reaches the end it keeps showing the last 10 lines. */
  lemma MoreStaysAtEnd(total: nat, last: Span)
    requires GoodSpan(last) && total >= 10 && last.stop >= total
    ensures Window(total, last.stop, 10) == Span(total - 10, total)
    ensures Window(total, Window(total, last.stop, 10).stop, 10) == Span(total - 10, total)
  {
  }

  /** `context` shows the 10 lines that end where the stored window starts. */
  lemma ContextEndsAtStart(total: nat, last: Span)
    requires 10 <= last.start <= total
    ensures Window(total, last.start - 10, 10) == Span(last.start - 10, last.start)
  {
  }

  // ---------------------------------------------------------------------------
  // grep

  /** A line grep reports: it contains the query and has fewer than four "::"
      separators (lines of generated history files carry several). */
  predicate Matching(line: string, query: string) {
    Contains(line, query) && SeparatorCount(line) < 4
  }

  /** The indexes in [from, to) of matching lines, in increasing order. */
  function Hits(lines: seq<string>, query: string, from: nat, to: nat): (r: seq<nat>)
    requires to <= |lines|
    ensures |r| <= to
  {
    if to <= from then []
    else Hits(lines, query, from, to - 1) + (if Matching(lines[to - 1], query) then [to - 1] else [])
  }

  /** Every hit is a matching line in [from, to). */
  lemma {:induction false} HitsSound(lines: seq<string>, query: string, from: nat, to: nat)
    requires to <= |lines|
    ensures forall j :: 0 <= j < |Hits(lines, query, from, to)| ==>
      from <= Hits(lines, query, from, to)[j] < to && Matching(lines[Hits(lines, query, from, to)[j]], query)
  {
    if to > from {
      HitsSound(lines, query, from, to - 1);
      var r := Hits(lines, query, from, to);
      var p := Hits(lines, query, from, to - 1);
      assert r == p + (if Matching(lines[to - 1], query) then [to - 1] else []);
      forall j | 0 <= j < |r|
        ensures from <= r[j] < to && Matching(lines[r[j]], query)
      {
        if j < |p| {
          assert r[j] == p[j];
          assert from <= p[j] < to - 1 && Matching(lines[p[j]], query);
        }
      }
    }
  }

  /** Hits come in increasing order, so none is reported twice. */
  lemma {:induction false} HitsSorted(lines: seq<string>, query: string, from: nat, to: nat)
    requires to <= |lines|
    ensures forall j, k :: 0 <= j < k < |Hits(lines, query, from, to)| ==>
      Hits(lines, query, from, to)[j] < Hits(lines, query, from, to)[k]
  {
    if to > from {
      HitsSorted(lines, query, from, to - 1);
      HitsSound(lines, query, from, to - 1);
      var r := Hits(lines, query, from, to);
      var p := Hits(lines, query, from, to - 1);
      forall j, k | 0 <= j < k < |r|
        ensures r[j] < r[k]
      {
        assert r[j] == p[j];
        if k < |p| {
          assert r[k] == p[k];
        }
      }
    }
  }

  /** Every matching line in [from, to) is a hit. */
  lemma {:induction false} HitsComplete(lines: seq<string>, query: string, from: nat, to: nat)
    requires to <= |lines|
    ensures forall i :: from <= i < to && Matching(lines[i], query) ==> i in Hits(lines, query, from, to)
  {
    if to > from {
      HitsComplete(lines, query, from, to - 1);
      var r := Hits(lines, query, from, to);
      var p := Hits(lines, query, from, to - 1);
      forall i | from <= i < to && Matching(lines[i], query)
        ensures i in r
      {
        if i < to - 1 {
          assert i in p;
          var j :| 0 <= j < |p| && p[j] == i;
          assert r[j] == i;
        } else {
          assert r[|r| - 1] == i;
        }
      }
    }
  }

  /** f"{index}: {line}" */
  function Format(index: nat, line: string): string {
    IntToString(index) + ": " + line
  }

  /** The formatted matching lines in [from, to): what the grep loop collects. */
  function MatchLines(lines: seq<string>, query: string, from: nat, to: nat): (r: seq<string>)
    requires to <= |lines|
    ensures |r| == |Hits(lines, query, from, to)|
  {
    if to <= from then []
    else MatchLines(lines, query, from, to - 1) + (if Matching(lines[to - 1], query) then [Format(to - 1, lines[to - 1])] else [])
  }

  /** Result j is hit j, formatted with its own index. */
  lemma {:induction false} MatchLinesAt(lines: seq<string>, query: string, from: nat, to: nat, j: nat)
    requires to <= |lines| && j < |Hits(lines, query, from, to)|
    ensures var h := Hits(lines, query, from, to);
      h[j] < to && MatchLines(lines, query, from, to)[j] == Format(h[j], lines[h[j]])
  {
    if j < |Hits(lines, query, from, to - 1)| {
      MatchLinesAt(lines, query, from, to - 1, j);
    }
  }

  function Header(count: nat, query: string): string {
    NatToString(count) + " matches found for " + query
  }

  function Footer(sent: nat, count: nat, query: string): string {
    "done sending " + NatToString(sent) + "/" + NatToString(count) + " results for " + query
  }

  /** The grep reply: a header with the number of matches from `from` on, at
      most `maxGrep` formatted matches, and a footer with both counts. */
  function GrepReply(lines: seq<string>, from: nat, maxGrep: nat, query: string): seq<string> {
    var results := MatchLines(lines, query, from, |lines|);
    var shown := if |results| > maxGrep then results[..maxGrep] else results;
    [Header(|results|, query)] + shown + [Footer(|shown|, |results|, query)]
  }

  /** What grep promises: the counts, the bound, and each result line is a
      matching line at or after `from`, with its own index. */
  lemma GrepReplyShape(lines: seq<string>, from: nat, maxGrep: nat, query: string)
    ensures var r := GrepReply(lines, from, maxGrep, query);
      var hits := Hits(lines, query, from, |lines|);
      var sent := Min(|hits|, maxGrep);
      && |r| == sent + 2
      && r[0] == Header(|hits|, query)
      && r[|r| - 1] == Footer(sent, |hits|, query)
      && forall j :: 1 <= j <= sent ==>
           from <= hits[j - 1] < |lines| && Matching(lines[hits[j - 1]], query)
           && r[j] == Format(hits[j - 1], lines[hits[j - 1]])
  {
    var hits := Hits(lines, query, from, |lines|);
    var results := MatchLines(lines, query, from, |lines|);
    var sent := Min(|hits|, maxGrep);
    var shown := results[..sent];
    var r := [Header(|hits|, query)] + shown + [Footer(sent, |hits|, query)];
    assert GrepReply(lines, from, maxGrep, query) == r;
    HitsSound(lines, query, from, |lines|);
    forall j | 1 <= j <= sent
      ensures hits[j - 1] < |lines| && r[j] == Format(hits[j - 1], lines[hits[j - 1]])
    {
      MatchLinesAt(lines, query, from, |lines|, j - 1);
      assert r[j] == shown[j - 1];
    }
  }

  /** The search loop of grep: every line from `from` on, in order. */
  method CollectMatches(lines: seq<string>, query: string, from: nat) returns (results: seq<string>)
    ensures results == MatchLines(lines, query, from, |lines|)
  {
    results := [];
    for i := Min(from, |lines|) to |lines|
      invariant results == MatchLines(lines, query, from, i)
    {
      if Matching(lines[i], query) {
        results := results + [Format(i, lines[i])];
      }
    }
  }

  /** The indexes in [from, to) of matching lines, as a set. */
  function MatchingIndexes(lines: seq<string>, query: string, from: nat, to: nat): set<nat>
    requires to <= |lines|
  {
    set i: nat | from <= i < to && Matching(lines[i], query)
  }

  /** The header counts exactly the matching lines from `from` on. */
  lemma {:induction false} HitsCount(lines: seq<string>, query: string, from: nat, to: nat)
    requires to <= |lines|
    ensures |Hits(lines, query, from, to)| == |MatchingIndexes(lines, query, from, to)|
  {
    if to > from {
      HitsCount(lines, query, from, to - 1);
      MatchingIndexesStep(lines, query, from, to);
    } else {
      assert MatchingIndexes(lines, query, from, to) == {};
    }
  }

  lemma MatchingIndexesStep(lines: seq<string>, query: string, from: nat, to: nat)
    requires from < to <= |lines|
    ensures MatchingIndexes(lines, query, from, to) ==
      MatchingIndexes(lines, query, from, to - 1) + (if Matching(lines[to - 1], query) then {to - 1} else {})
    ensures to - 1 !in MatchingIndexes(lines, query, from, to - 1)
  {
  }

  // ---------------------------------------------------------------------------
  // set_status

  /** The reply set_status gives and the status it leaves. */
  datatype Assignment = Assignment(reply: string, status: Status)

  /** set_status(property, value): booleans become value[0] == "t" (IndexError
      on an empty value), integers take a digit string, slices cannot be set. */
  function Assign(status: Status, property: string, value: string): (r: Result<Assignment>)
    ensures r.Err? <==> property in status && status[property].Flag? && value == ""
    ensures r.Err? ==> r.error == IndexError
    ensures r.Ok? ==> r.value.status.Keys == status.Keys
    ensures r.Ok? ==> forall k :: k in status && k != property ==> r.value.status[k] == status[k]
    ensures r.Ok? ==> forall k :: k in status ==> SameKind(r.value.status[k], status[k])
    ensures r.Ok? && r.value.reply != "set" ==> r.value.status == status
  {
    if property !in status then
      Ok(Assignment("invalid status to set " + property, status))
    else
      match status[property]
      case Flag(_) =>
        if value == "" then Err(IndexError)
        else Ok(Assignment("set", status[property := Flag(value[0] == 't')]))
      case Number(_) =>
        if IsDigits(value) then Ok(Assignment("set", status[property := Number(ParseNat(value))]))
        else Ok(Assignment("invalid value", status))
      case Slice(_) =>
        Ok(Assignment("you cannot set that", status))
  }

  lemma AssignUnknown(status: Status, property: string, value: string)
    requires property !in status
    ensures Assign(status, property, value) == Ok(Assignment("invalid status to set " + property, status))
  {
  }

  /** A flag is switched on exactly by a value that starts with "t". */
  lemma AssignFlag(status: Status, property: string, value: string)
    requires property in status && status[property].Flag? && value != ""
    ensures Assign(status, property, value) == Ok(Assignment("set", status[property := Flag(value[0] == 't')]))
    ensures Assign(status, property, value).value.status[property].flag <==> value[0] == 't'
  {
  }

  /** An integer setting takes the number written in decimal, and the number
      reads back. */
  lemma AssignNumber(status: Status, property: string, n: nat)
    requires property in status && status[property].Number?
    ensures Assign(status, property, NatToString(n)) == Ok(Assignment("set", status[property := Number(n)]))
  {
    ParseNatOfString(n);
  }

  /** Anything but digits leaves an integer setting alone. */
  lemma AssignNotNumber(status: Status, property: string, value: string)
    requires property in status && status[property].Number? && !IsDigits(value)
    ensures Assign(status, property, value) == Ok(Assignment("invalid value", status))
  {
  }

  lemma AssignWindow(status: Status, value: string)
    requires LastHistoryKey in status && status[LastHistoryKey].Slice?
    ensures Assign(status, LastHistoryKey, value) == Ok(Assignment("you cannot set that", status))
  {
  }

  /** set_status keeps the shape of the status map. */
  lemma AssignWellFormed(status: Status, groups: seq<ReplyGroup>, property: string, value: string)
    requires WellFormed(status, groups)
    requires Assign(status, property, value).Ok?
    ensures WellFormed(Assign(status, property, value).value.status, groups)
  {
    var after := Assign(status, property, value).value.status;
    forall i | 0 <= i < |groups| ensures groups[i].name in after && after[groups[i].name].Flag? {
      assert SameKind(after[groups[i].name], status[groups[i].name]);
    }
    assert SameKind(after[LastHistoryKey], status[LastHistoryKey]);
  }

  // ---------------------------------------------------------------------------
  // The status report

  /** str(value) for a status value. */
  function Render(v: StatusValue): (r: string)
    ensures r != [] && IsStripped(r)
  {
    match v
    case Flag(b) => if b then "True" else "False"
    case Number(n) => IntToString(n)
    case Slice(w) =>
      var r := "slice(" + IntToString(w.start) + ", " + IntToString(w.stop) + ", None)";
      assert r[0] == 's' && r[|r| - 1] == ')';
      r
  }

  /** Every key of `order` is a key of the status map. */
  predicate Listed(status: Status, order: seq<string>) {
    forall i :: 0 <= i < |order| ==> order[i] in status
  }

  /** No key has surrounding whitespace. */
  predicate PlainKeys(order: seq<string>) {
    forall i :: 0 <= i < |order| ==> order[i] != [] && IsStripped(order[i])
  }

  /** The tuple (key, value) join_items describes. */
  function StatusEntry(key: string, v: StatusValue): Entry {
    Entry(key, [Str(Render(v))])
  }

  /** The (key, value) tuples of the status map, in insertion order. */
  function StatusEntries(status: Status, order: seq<string>): (r: seq<Entry>)
    requires Listed(status, order)
    ensures |r| == |order|
  {
    if order == [] then []
    else
      var key := order[|order| - 1];
      StatusEntries(status, order[..|order| - 1]) + [StatusEntry(key, status[key])]
  }

  /** join_items(*status.items(), description_mode="short", end="", newlines=0) */
  function StatusText(status: Status, order: seq<string>): string
    requires Listed(status, order)
  {
    Finish(Descriptions(StatusEntries(status, order), "short"), "\n", "", "", 0)
  }

  /** A `key: value` line of the report. */
  function StatusLine(key: string, v: StatusValue): string {
    key + ": " + Render(v)
  }

  /** The `key: value` lines of the report. */
  function StatusLines(status: Status, order: seq<string>): (r: seq<string>)
    requires Listed(status, order)
    ensures |r| == |order|
  {
    if order == [] then []
    else
      var key := order[|order| - 1];
      StatusLines(status, order[..|order| - 1]) + [StatusLine(key, status[key])]
  }

  /** One report line per key, in insertion order, when no key has surrounding
      whitespace. */
  lemma StatusReport(status: Status, order: seq<string>)
    requires Listed(status, order) && PlainKeys(order)
    ensures StatusText(status, order) == Join("\n", StatusLines(status, order))
  {
    StatusDescriptions(status, order);
    StatusLinesStripped(status, order);
    FinishOfStripped(StatusLines(status, order), "\n", "", "", 0);
  }

  /** Each tuple is described by its report line. */
  lemma {:induction false} StatusDescriptions(status: Status, order: seq<string>)
    requires Listed(status, order) && PlainKeys(order)
    ensures Descriptions(StatusEntries(status, order), "short") == StatusLines(status, order)
  {
    if order != [] {
      var n := |order| - 1;
      var key := order[n];
      var front := order[..n];
      PlainKeysPrefix(order, n);
      StatusDescriptions(status, front);
      var entries := StatusEntries(status, order);
      assert entries == StatusEntries(status, front) + [StatusEntry(key, status[key])];
      assert entries[..n + 1] == entries;
      assert entries[..n] == StatusEntries(status, front);
      DescriptionsSnoc(entries, "short", n);
      ReportLine(key, status[key]);
      assert StatusLines(status, order) == StatusLines(status, front) + [StatusLine(key, status[key])];
    }
  }

  lemma PlainKeysPrefix(order: seq<string>, n: nat)
    requires PlainKeys(order) && n <= |order|
    ensures PlainKeys(order[..n])
  {
    forall i | 0 <= i < n ensures order[..n][i] != [] && IsStripped(order[..n][i]) {
      assert order[..n][i] == order[i];
    }
  }

  /** Every report line is a non-empty, stripped text. */
  lemma {:induction false} StatusLinesStripped(status: Status, order: seq<string>)
    requires Listed(status, order) && PlainKeys(order)
    ensures StrippedWords(StatusLines(status, order))
  {
    if order != [] {
      var n := |order| - 1;
      var key := order[n];
      var front := order[..n];
      PlainKeysPrefix(order, n);
      StatusLinesStripped(status, front);
      ReportLine(key, status[key]);
      var lines := StatusLines(status, order);
      assert lines == StatusLines(status, front) + [StatusLine(key, status[key])];
      forall k | 0 <= k < |lines| ensures lines[k] != [] && IsStripped(lines[k]) {
        if k < n {
          assert lines[k] == StatusLines(status, front)[k];
        }
      }
    }
  }

  /** The short description of one tuple is its report line. */
  lemma ReportLine(name: string, v: StatusValue)
    requires name != [] && IsStripped(name)
    ensures Description(name, [Str(Render(v))], "short", "\n", 0) == Ok(StatusLine(name, v))
    ensures StatusLine(name, v) != [] && IsStripped(StatusLine(name, v))
  {
    assert Texts([Str(Render(v))]) == [Render(v)];
    DescriptionShort(name, [Str(Render(v))], "\n", 0);
    assert Join(", ", [Render(v)]) == Render(v);
    assert Newlines(0) == "";
    assert name + ": " + Render(v) + "" == name + ": " + Render(v);
    LabelStripped(name, Render(v));
  }

  // ---------------------------------------------------------------------------
  // Choosing a reply

  /** get_random_reply: a one-element list from a "single" group, a whole set
      from a "group" group, and Python's None (here None) for other types. */
  function RandomReply(replies: Replies, pick: nat): (r: Result<Option<seq<string>>>)
    ensures r.Err? <==> (replies.Single? && replies.pool == []) || (replies.Sets? && replies.sets == [])
    ensures r.Err? ==> r.error == IndexError
    ensures r.Ok? && replies.Single? ==> r.value.Some? && |r.value.value| == 1 && r.value.value[0] in replies.pool
    ensures r.Ok? && replies.Sets? ==> r.value.Some? && r.value.value in replies.sets
    ensures r == Ok(None) <==> replies.Untyped?
  {
    match replies
    case Single(pool) =>
      var reply :- Choice(pool, pick);
      Ok(Some([reply]))
    case Sets(sets) =>
      var set_ :- Choice(sets, pick);
      Ok(Some(set_))
    case Untyped => Ok(None)
  }

  /** Using get_random_reply's result as a list: None raises TypeError. */
  function AsList(r: Result<Option<seq<string>>>): (l: Result<seq<string>>)
    ensures l.Ok? <==> r.Ok? && r.value.Some?
    ensures l.Ok? ==> l.value == r.value.value
    ensures r.Ok? && r.value.None? ==> l == Err(TypeError)
  {
    var o :- r;
    if o.Some? then Ok(o.value) else Err(TypeError)
  }

  /** The draws one reply_to_user makes: random.choice among the keyword's
      replies, randint(0, 100) for the i-th group it looks at, random.choice in
      the chosen group, randint(1, 10) for the history fallback, and the random
      start of the history shown. */
  datatype Draws = Draws(keywordPick: nat, groupRoll: nat -> nat, groupPick: nat, historyRoll: nat, historyStart: nat)

  /** Which keyword patterns match the cleaned text. */
  function KeywordFlags(rules: seq<KeywordRule>, text: string, matches: (string, string) -> bool): (r: seq<bool>)
    ensures |r| == |rules|
    ensures forall i :: 0 <= i < |rules| ==> r[i] == matches(rules[i].pattern, text)
  {
    if rules == [] then []
    else [matches(rules[0].pattern, text)] + KeywordFlags(rules[1..], text, matches)
  }

  /** Whether the i-th group fires in reply_to_user: its draw is within its
      chance and its flag is set. */
  predicate GroupFires(group: ReplyGroup, roll: nat, status: Status)
    requires group.name in status
  {
    RandInt(0, 100, roll).value <= group.chance && Truthy(status[group.name])
  }

  function GroupFlags(groups: seq<ReplyGroup>, status: Status, roll: nat -> nat, offset: nat): (r: seq<bool>)
    requires forall i :: 0 <= i < |groups| ==> groups[i].name in status
    ensures |r| == |groups|
    ensures forall i :: 0 <= i < |groups| ==> r[i] == GroupFires(groups[i], roll(offset + i), status)
  {
    if groups == [] then []
    else [GroupFires(groups[0], roll(offset), status)] + GroupFlags(groups[1..], status, roll, offset + 1)
  }

  /** The keyword pass: the first matching pattern answers with one of its
      replies. Matching against clean("") (the list [""]) raises TypeError. */
  function KeywordStage(rules: seq<KeywordRule>, raw: string, matches: (string, string) -> bool, pick: nat): (r: Result<seq<string>>)
    ensures r.Ok? ==> |r.value| <= 1
    ensures rules == [] ==> r == Ok([])
    ensures rules != [] && raw == "" ==> r == Err(TypeError)
    ensures raw != "" && (forall j :: 0 <= j < |rules| ==> !matches(rules[j].pattern, Clean(raw, false).line)) ==>
      r == Ok([])
  {
    if rules == [] then Ok([])
    else if raw == "" then Err(TypeError)
    else
      match FirstTrue(KeywordFlags(rules, Clean(raw, false).line, matches))
      case None => Ok([])
      case Some(k) =>
        var reply :- Choice(rules[k].responses, pick);
        Ok([reply])
  }

  /** The group pass: the first group that fires answers with its random reply. */
  function GroupStage(groups: seq<ReplyGroup>, status: Status, draws: Draws): (r: Result<seq<string>>)
    requires forall i :: 0 <= i < |groups| ==> groups[i].name in status
  {
    match FirstTrue(GroupFlags(groups, status, draws.groupRoll, 0))
    case None => Ok([])
    case Some(i) => AsList(RandomReply(groups[i].replies, draws.groupPick))
  }

  /** [reply.upper() for reply in replies] */
  function UpperAll(replies: seq<string>): (r: seq<string>)
    ensures |r| == |replies|
    ensures forall i :: 0 <= i < |replies| ==> r[i] == Upper(replies[i])
  {
    if replies == [] then [] else [Upper(replies[0])] + UpperAll(replies[1..])
  }

  /** All-caps messages get all-caps replies. */
  function Mirror(raw: string, replies: seq<string>): (r: seq<string>)
    ensures |r| == |replies|
  {
    if IsUpper(raw) then UpperAll(replies) else replies
  }

  /** The replies reply_to_user sends and the history window it shows, if any. */
  datatype Reply = Reply(replies: seq<string>, window: Option<Span>)

  /** The keyword pass, then the group pass when no keyword answered. */
  function Selected(data: ReplyData, status: Status, raw: string,
                    matches: (string, string) -> bool, draws: Draws): (r: Result<seq<string>>)
    requires WellFormed(status, data.groups)
  {
    var keyword :- KeywordStage(data.keywords, raw, matches, draws.keywordPick);
    if keyword != [] then Ok(keyword) else GroupStage(data.groups, status, draws)
  }

  /** reply_to_user: keywords, then reply groups, then (with nothing to say, a
      draw below 3 out of 10 and history on) a random piece of history; all caps
      in, all caps out. */
  function ReplyPlan(data: ReplyData, status: Status, lines: seq<string>, raw: string,
                     matches: (string, string) -> bool, draws: Draws): (r: Result<Reply>)
    requires WellFormed(status, data.groups)
  {
    var grouped :- Selected(data, status, raw, matches, draws);
    if grouped == [] && RandInt(1, 10, draws.historyRoll).value < 3 && Truthy(status[HistoryKey]) then
      var shown :- History(lines, None, 5, draws.historyStart);
      Ok(Reply(Mirror(raw, shown.lines), Some(shown.window)))
    else
      Ok(Reply(Mirror(raw, grouped), None))
  }

  /** The first matching keyword answers alone, with one of its own replies;
      groups and history are not consulted. */
  lemma KeywordWins(data: ReplyData, status: Status, lines: seq<string>, raw: string,
                    matches: (string, string) -> bool, draws: Draws, k: nat)
    requires WellFormed(status, data.groups)
    requires raw != "" && k < |data.keywords|
    requires matches(data.keywords[k].pattern, Clean(raw, false).line)
    requires forall j :: 0 <= j < k ==> !matches(data.keywords[j].pattern, Clean(raw, false).line)
    requires data.keywords[k].responses != []
    ensures var responses := data.keywords[k].responses;
      ReplyPlan(data, status, lines, raw, matches, draws) ==
        Ok(Reply(Mirror(raw, [responses[draws.keywordPick % |responses|]]), None))
  {
    FirstTrueAt(KeywordFlags(data.keywords, Clean(raw, false).line, matches), k);
  }

  /** With no keyword match, the first group that fires answers, with one reply
      of a "single" group or one whole set of a "group" group. */
  lemma GroupWins(data: ReplyData, status: Status, lines: seq<string>, raw: string,
                  matches: (string, string) -> bool, draws: Draws, i: nat)
    requires WellFormed(status, data.groups)
    requires KeywordStage(data.keywords, raw, matches, draws.keywordPick) == Ok([])
    requires i < |data.groups| && GroupFires(data.groups[i], draws.groupRoll(i), status)
    requires forall j :: 0 <= j < i ==> !GroupFires(data.groups[j], draws.groupRoll(j), status)
    requires var g := data.groups[i].replies;
      (g.Single? && g.pool != []) || (g.Sets? && g.sets != [] && g.sets[draws.groupPick % |g.sets|] != [])
    ensures var g := data.groups[i].replies;
      ReplyPlan(data, status, lines, raw, matches, draws) ==
        Ok(Reply(Mirror(raw, if g.Single? then [g.pool[draws.groupPick % |g.pool|]]
                             else g.sets[draws.groupPick % |g.sets|]), None))
  {
    FirstTrueAt(GroupFlags(data.groups, status, draws.groupRoll, 0), i);
  }

  /** A group whose flag is off never answers. */
  lemma DisabledGroupSilent(groups: seq<ReplyGroup>, status: Status, roll: nat -> nat, i: nat)
    requires forall j :: 0 <= j < |groups| ==> groups[j].name in status
    requires i < |groups| && status[groups[i].name] == Flag(false)
    ensures FirstTrue(GroupFlags(groups, status, roll, 0)) != Some(i)
  {
  }

  /** History is quoted only when keywords and groups gave nothing, the draw is
      below 3 and history is on. */
  lemma HistoryOnlyAsFallback(data: ReplyData, status: Status, lines: seq<string>, raw: string,
                              matches: (string, string) -> bool, draws: Draws)
    requires WellFormed(status, data.groups)
    requires ReplyPlan(data, status, lines, raw, matches, draws).Ok?
    requires ReplyPlan(data, status, lines, raw, matches, draws).value.window.Some?
    ensures KeywordStage(data.keywords, raw, matches, draws.keywordPick) == Ok([])
    ensures GroupStage(data.groups, status, draws) == Ok([])
    ensures 1 + draws.historyRoll % 10 < 3 && status[HistoryKey] == Flag(true)
  {
  }

  /** All-caps input gets replies without lower-case letters; other input gets
      the replies unchanged. */
  lemma MirrorCaps(raw: string, replies: seq<string>)
    ensures IsUpper(raw) ==> forall i :: 0 <= i < |replies| ==> NoLower(Mirror(raw, replies)[i])
    ensures !IsUpper(raw) ==> Mirror(raw, replies) == replies
  {
  }

  /** A pattern search that finds the pattern anywhere in the text. */
  predicate Substring(pattern: string, text: string) {
    Contains(text, pattern)
  }

  /** A bot whose only rule answers "hi" with "hello!". */
  const HelloData: ReplyData := ReplyData([KeywordRule("hi", ["hello!"])], [])

  lemma SplitHiThere()
    ensures Split("hi there") == ["hi", "there"]
  {
    var words := ["hi", "there"];
    assert Join(" ", words) == "hi there";
    assert IsToken(words[0]) && IsToken(words[1]);
    SplitJoin(words);
  }

  lemma JoinHiThere()
    ensures Join(" ", ["hi", "there"]) == "hi there"
  {
  }

  lemma LowerHiThere(raw: string)
    requires raw == "hi there" || raw == "HI THERE"
    ensures Lower(Strip(raw)) == "hi there"
  {
    assert !IsSpace(raw[0]) && !IsSpace(raw[|raw| - 1]);
    StripIdentity(raw);
    forall i | 0 <= i < |raw| ensures Lower(raw)[i] == "hi there"[i] {
    }
  }

  lemma CleanHiThere(raw: string)
    requires raw == "hi there" || raw == "HI THERE"
    ensures Clean(raw, false) == Line("hi there")
  {
    LowerHiThere(raw);
    SplitHiThere();
    JoinHiThere();
    CleanLineOf(raw);
  }

  lemma HelloReply(status: Status, lines: seq<string>, raw: string, draws: Draws)
    requires WellFormed(status, [])
    requires raw == "hi there" || raw == "HI THERE"
    ensures ReplyPlan(HelloData, status, lines, raw, Substring, draws) == Ok(Reply(Mirror(raw, ["hello!"]), None))
  {
    CleanHiThere(raw);
    assert Substring("hi", "hi there") by {
      assert "hi" <= "hi there";
    }
    FirstTrueAt(KeywordFlags(HelloData.keywords, "hi there", Substring), 0);
  }

  lemma Shouting()
    ensures IsUpper("HI THERE") && !IsUpper("hi there")
    ensures Upper("hello!") == "HELLO!"
  {
    var shout := "HI THERE";
    assert IsAsciiUpper(shout[0]);
    assert NoLower(shout) by {
      forall i | 0 <= i < |shout| ensures !IsAsciiLower(shout[i]) {
        assert shout[i] in "HI TER";
      }
    }
    assert IsAsciiLower("hi there"[0]);
    var hello := "hello!";
    forall i | 0 <= i < |hello| ensures Upper(hello)[i] == "HELLO!"[i] {
      assert UpperChar(hello[i]) == "HELLO!"[i];
    }
  }

  /** A message "hi there" to that bot gets "hello!", and shouted, "HELLO!". */
  lemma HelloExample(status: Status, lines: seq<string>, draws: Draws)
    requires WellFormed(status, [])
    ensures ReplyPlan(HelloData, status, lines, "hi there", Substring, draws) == Ok(Reply(["hello!"], None))
    ensures ReplyPlan(HelloData, status, lines, "HI THERE", Substring, draws) == Ok(Reply(["HELLO!"], None))
  {
    HelloReply(status, lines, "hi there", draws);
    HelloReply(status, lines, "HI THERE", draws);
    Shouting();
    assert UpperAll(["hello!"]) == ["HELLO!"];
  }

  // ---------------------------------------------------------------------------
  // The forcing keywords of handle_message

  /** Which groups have a keyword that matches the cleaned text. */
  function ForcingFlags(groups: seq<ReplyGroup>, text: string, matches: (string, string) -> bool): (r: seq<bool>)
    ensures |r| == |groups|
    ensures forall i :: 0 <= i < |groups| ==>
      r[i] == (groups[i].keyword.Some? && matches(groups[i].keyword.value, text))
  {
    if groups == [] then []
    else [groups[0].keyword.Some? && matches(groups[0].keyword.value, text)] + ForcingFlags(groups[1..], text, matches)
  }

  function KeywordGroups(groups: seq<ReplyGroup>): (r: seq<bool>)
    ensures |r| == |groups|
    ensures forall i :: 0 <= i < |groups| ==> r[i] == groups[i].keyword.Some?
  {
    if groups == [] then [] else [groups[0].keyword.Some?] + KeywordGroups(groups[1..])
  }

  /** The group handle_message forces: the first whose keyword matches the
      cleaned message. Matching against clean("") raises TypeError as soon as a
      group with a keyword is reached. */
  function ForcedGroup(groups: seq<ReplyGroup>, raw: string, matches: (string, string) -> bool): (r: Result<Option<nat>>)
    ensures r.Err? <==> raw == "" && exists i :: 0 <= i < |groups| && groups[i].keyword.Some?
    ensures r.Err? ==> r.error == TypeError
    ensures r.Ok? && r.value.Some? ==> var i := r.value.value;
      && raw != ""
      && i < |groups| && groups[i].keyword.Some?
      && matches(groups[i].keyword.value, Clean(raw, false).line)
      && forall j :: 0 <= j < i ==> !(groups[j].keyword.Some? && matches(groups[j].keyword.value, Clean(raw, false).line))
  {
    if raw == "" then
      if FirstTrue(KeywordGroups(groups)).Some? then Err(TypeError) else Ok(None)
    else
      match FirstTrue(ForcingFlags(groups, Clean(raw, false).line, matches))
      case None => Ok(None)
      case Some(i) => Ok(Some(i))
  }

  /** The first group whose keyword matches a non-empty message is forced. */
  lemma ForcedFirst(groups: seq<ReplyGroup>, raw: string, matches: (string, string) -> bool, i: nat)
    requires raw != "" && i < |groups|
    requires groups[i].keyword.Some? && matches(groups[i].keyword.value, Clean(raw, false).line)
    requires forall j :: 0 <= j < i ==>
      !(groups[j].keyword.Some? && matches(groups[j].keyword.value, Clean(raw, false).line))
    ensures ForcedGroup(groups, raw, matches) == Ok(Some(i))
  {
    FirstTrueAt(ForcingFlags(groups, Clean(raw, false).line, matches), i);
  }

  /** A message with no matching forcing keyword forces nothing, whatever the
      chances; groups without a keyword are never forced. */
  lemma ForcedNone(groups: seq<ReplyGroup>, raw: string, matches: (string, string) -> bool)
    requires raw != ""
    requires forall i :: 0 <= i < |groups| && groups[i].keyword.Some? ==>
      !matches(groups[i].keyword.value, Clean(raw, false).line)
    ensures ForcedGroup(groups, raw, matches) == Ok(None)
  {
  }

  /** What handle_message sends for a forced group: its random reply, or None
      when no group is forced. */
  function ForcedReply(groups: seq<ReplyGroup>, raw: string, matches: (string, string) -> bool, pick: nat): (r: Result<Option<seq<string>>>)
    ensures r.Ok? && r.value.Some? ==>
      && ForcedGroup(groups, raw, matches).Ok?
      && ForcedGroup(groups, raw, matches).value.Some?
      && RandomReply(groups[ForcedGroup(groups, raw, matches).value.value].replies, pick) == Ok(r.value)
    ensures ForcedGroup(groups, raw, matches).Err? ==> r == Err(ForcedGroup(groups, raw, matches).error)
    ensures ForcedGroup(groups, raw, matches) == Ok(None) ==> r == Ok(None)
    ensures ForcedGroup(groups, raw, matches).Ok? && ForcedGroup(groups, raw, matches).value.Some? ==>
      var drawn := RandomReply(groups[ForcedGroup(groups, raw, matches).value.value].replies, pick);
      && (drawn.Err? ==> r == Err(drawn.error))
      && (drawn == Ok(None) ==> r == Err(TypeError))
      && (drawn.Ok? && drawn.value.Some? ==> r == Ok(drawn.value))
  {
    var forced :- ForcedGroup(groups, raw, matches);
    if forced.None? then Ok(None)
    else
      var replies :- AsList(RandomReply(groups[forced.value].replies, pick));
      Ok(Some(replies))
  }

  // ---------------------------------------------------------------------------
  // The handler

  /** Which get_history call a command makes. */
  datatype Command = Context | More | HistoryAt(start: Option<int>) | Grep | NoCommand

  /** What run_commands makes of the words of a message. */
  function CommandOf(words: seq<string>): (c: Command)
    ensures c == Context <==> At(words, 0, "") == "context"
    ensures c == More <==> At(words, 0, "") == "more"
    ensures c == Grep <==> At(words, 0, "") == "grep"
    ensures c.HistoryAt? <==> At(words, 0, "") == "history"
    ensures c.HistoryAt? && c.start.Some? ==> IsDigits(At(words, 1, ""))
    ensures At(words, 0, "") == "history" && IsDigits(At(words, 1, "")) ==>
      c == HistoryAt(Some(ParseNat(At(words, 1, ""))))
    ensures At(words, 0, "") == "history" && !IsDigits(At(words, 1, "")) ==> c == HistoryAt(None)
  {
    var word := At(words, 0, "");
    if word == "context" then Context
    else if word == "more" then More
    else if word == "history" then
      var next := At(words, 1, "");
      HistoryAt(if IsDigits(next) then Some(ParseNat(next)) else None)
    else if word == "grep" then Grep
    else NoCommand
  }

  /** The start and size of the history a command asks for, given the window
      shown last. */
  function HistoryRequest(c: Command, last: Span): Option<(Option<int>, nat)> {
    match c
    case Context => Some((Some(last.start - 10), 10))
    case More => Some((Some(last.stop), 10))
    case HistoryAt(start) => Some((start, 5))
    case _ => None
  }

  /** raw_text[5:], the query of "grep <query>". */
  function Query(raw: string): (q: string)
    ensures |raw| >= 5 ==> raw == raw[..5] + q
    ensures |raw| <= 5 ==> q == ""
  {
    if |raw| > 5 then raw[5..] else ""
  }

  /** The words run_commands reads off the parser: the command, and for
      "history" the next word. */
  method ReadCommand(raw: string) returns (c: Command)
    ensures c == CommandOf(Clean(raw, true).words)
  {
    var parser := new CommandParser(raw);
    var word := parser.Next();
    if word == "context" {
      c := Context;
    } else if word == "more" {
      c := More;
    } else if word == "history" {
      word := parser.Next();
      c := HistoryAt(if IsDigits(word) then Some(ParseNat(word)) else None);
    } else if word == "grep" {
      c := Grep;
    } else {
      c := NoCommand;
    }
  }

  /** The keyword loop of reply_to_user: the first pattern that matches the
      cleaned text answers with one of its replies. */
  method KeywordPass(rules: seq<KeywordRule>, raw: string, matches: (string, string) -> bool, pick: nat)
    returns (r: Result<seq<string>>)
    ensures r == KeywordStage(rules, raw, matches, pick)
  {
    var text := Clean(raw, false);
    ghost var flags := KeywordFlags(rules, if raw == "" then "" else text.line, matches);
    for k := 0 to |rules|
      invariant forall j :: 0 <= j < k ==> !flags[j]
      invariant k > 0 ==> raw != ""
    {
      if text.Words? {
        return Err(TypeError);
      }
      if matches(rules[k].pattern, text.line) {
        FirstTrueAt(flags, k);
        var reply := Choice(rules[k].responses, pick);
        if reply.Err? {
          return Err(reply.error);
        }
        return Ok([reply.value]);
      }
    }
    r := Ok([]);
  }

  /** An admin command with the words it reads. */
  datatype AdminCommand = Ping | Report | ReplyTo(text: string) | Set(property: string, value: string) | Stop | Unknown

  /** What run_admin_commands makes of the words of a message: "reply" replies
      to the rest of the words, "set" takes the next two. */
  function AdminCommandOf(words: seq<string>): AdminCommand {
    var word := At(words, 0, "");
    if word == "ping" then Ping
    else if word == "status" then Report
    else if word == "reply" then ReplyTo(Join(" ", words[Min(1, |words|)..]))
    else if word == "set" then Set(At(words, 1, ""), At(words, 2, ""))
    else if word == "quit" then Stop
    else Unknown
  }

  /** The words run_admin_commands reads off the parser. */
  method ReadAdminCommand(raw: string) returns (c: AdminCommand)
    ensures c == AdminCommandOf(Clean(raw, true).words)
  {
    var parser := new CommandParser(raw);
    var word := parser.Next();
    if word == "ping" {
      c := Ping;
    } else if word == "status" {
      c := Report;
    } else if word == "reply" {
      var rest := parser.Remaining();
      c := ReplyTo(rest);
    } else if word == "set" {
      var property := parser.Next();
      var value := parser.Next();
      c := Set(property, value);
    } else if word == "quit" {
      c := Stop;
    } else {
      c := Unknown;
    }
  }

  /** What run_admin_commands does besides changing the status. */
  datatype AdminAction = NoAction | ToLog(messages: seq<string>) | Quit

  /** The status map __init__ builds for the given reply groups. */
  function Seeded(groups: seq<ReplyGroup>): Status {
    if groups == [] then
      map[ActiveKey := Flag(true), HistoryKey := Flag(true), LastHistoryKey := Slice(Span(1, 2)),
          GrepStartKey := Number(0), MaxGrepKey := Number(20)]
    else
      Seeded(groups[..|groups| - 1])[groups[|groups| - 1].name := Flag(true)]
  }

  /** The keys of Seeded(groups) in the order the dict keeps them: a key set a
      second time keeps its first place. */
  function KeyOrder(groups: seq<ReplyGroup>): seq<string> {
    if groups == [] then EngineKeys
    else
      var prior := groups[..|groups| - 1];
      var name := groups[|groups| - 1].name;
      KeyOrder(prior) + if name in Seeded(prior) then [] else [name]
  }

  /** The keys __init__ creates: the settings and the group names, no other. */
  lemma {:induction false} SeededKeys(groups: seq<ReplyGroup>)
    ensures forall k :: k in Seeded(groups) <==>
      k in EngineKeys || exists i :: 0 <= i < |groups| && groups[i].name == k
  {
    if groups != [] {
      var prior := groups[..|groups| - 1];
      SeededKeys(prior);
      forall i | 0 <= i < |prior|
        ensures prior[i] == groups[i]
      {
      }
    }
  }

  /** The settings keep their seeded values and every group flag is true. */
  lemma {:induction false} SeededValues(groups: seq<ReplyGroup>)
    requires forall i :: 0 <= i < |groups| ==> FlagName(groups[i].name)
    ensures var s := Seeded(groups);
      && ActiveKey in s && s[ActiveKey] == Flag(true) && HistoryKey in s && s[HistoryKey] == Flag(true)
      && LastHistoryKey in s && s[LastHistoryKey] == Slice(Span(1, 2))
      && GrepStartKey in s && s[GrepStartKey] == Number(0) && MaxGrepKey in s && s[MaxGrepKey] == Number(20)
      && forall i :: 0 <= i < |groups| ==> groups[i].name in s && s[groups[i].name] == Flag(true)
  {
    if groups != [] {
      var prior := groups[..|groups| - 1];
      SeededValues(prior);
      forall i | 0 <= i < |prior|
        ensures prior[i] == groups[i]
      {
      }
    }
  }

  /** KeyOrder lists every key of Seeded exactly once, the settings first. */
  lemma {:induction false} KeyOrderListed(groups: seq<ReplyGroup>)
    ensures var s := Seeded(groups);
      var order := KeyOrder(groups);
      && Listed(s, order)
      && (forall k :: k in s ==> k in order)
      && (forall i, j :: 0 <= i < j < |order| ==> order[i] != order[j])
      && |order| >= 5 && order[..5] == EngineKeys
  {
    if groups != [] {
      var prior := groups[..|groups| - 1];
      KeyOrderListed(prior);
    }
  }

  /** The group loop of reply_to_user: the first group whose roll is within
      its chance and whose flag is set answers. */
  method GroupPass(groups: seq<ReplyGroup>, status: Status, draws: Draws) returns (r: Result<seq<string>>)
    requires forall i :: 0 <= i < |groups| ==> groups[i].name in status
    ensures r == GroupStage(groups, status, draws)
  {
    ghost var fires := GroupFlags(groups, status, draws.groupRoll, 0);
    var g := 0;
    while g < |groups|
      invariant 0 <= g <= |groups|
      invariant forall j :: 0 <= j < g ==> !fires[j]
    {
      var group := groups[g];
      var roll := RandInt(0, 100, draws.groupRoll(g));
      if roll.value <= group.chance && Truthy(status[group.name]) {
        FirstTrueAt(fires, g);
        return AsList(RandomReply(group.replies, draws.groupPick));
      }
      g := g + 1;
    }
    r := Ok([]);
  }

  /** The status dict of __init__ and its insertion order: the settings, then
      one flag per reply group, set to true. */
  method SeedStatus(groups: seq<ReplyGroup>) returns (seeded: Status, keys: seq<string>)
    ensures seeded == Seeded(groups) && keys == KeyOrder(groups)
  {
    seeded := map[ActiveKey := Flag(true), HistoryKey := Flag(true),
      LastHistoryKey := Slice(Span(1, 2)), GrepStartKey := Number(0), MaxGrepKey := Number(20)];
    keys := EngineKeys;
    for n := 0 to |groups|
      invariant seeded == Seeded(groups[..n]) && keys == KeyOrder(groups[..n])
    {
      var name := groups[n].name;
      assert groups[..n + 1][..n] == groups[..n];
      if name !in seeded {
        keys := keys + [name];
      }
      seeded := seeded[name := Flag(true)];
    }
    assert groups[..|groups|] == groups;
  }

  /** The keyword and group loops of reply_to_user. */
  method SelectReplies(data: ReplyData, status: Status, raw: string,
                       matches: (string, string) -> bool, draws: Draws) returns (r: Result<seq<string>>)
    requires WellFormed(status, data.groups)
    ensures r == Selected(data, status, raw, matches, draws)
  {
    var replies := KeywordPass(data.keywords, raw, matches, draws.keywordPick);
    if replies.Err? {
      return Err(replies.error);
    }
    if replies.value != [] {
      return replies;
    }
    r := GroupPass(data.groups, status, draws);
  }

  class Handler {
    /** reply_data */
    const data: ReplyData
    /** The lines of the history file. */
    const lines: seq<string>
    var status: Status
    /** The keys of the status map in insertion order. */
    var order: seq<string>

    ghost predicate Valid()
      reads this
    {
      && WellFormed(status, data.groups)
      && (forall i :: 0 <= i < |data.groups| ==> FlagName(data.groups[i].name))
      && Listed(status, order)
      && (forall k :: k in status ==> k in order)
      && (forall i, j :: 0 <= i < j < |order| ==> order[i] != order[j])
    }

    /** __init__: the engine's own settings, then a flag set for every reply
        group. A group named like one of the settings that is not a flag would
        overwrite it. */
    constructor (data: ReplyData, lines: seq<string>)
      requires forall i :: 0 <= i < |data.groups| ==> FlagName(data.groups[i].name)
      ensures Valid() && this.data == data && this.lines == lines
      ensures status == Seeded(data.groups) && order == KeyOrder(data.groups)
    {
      this.data := data;
      this.lines := lines;
      var seeded, keys := SeedStatus(data.groups);
      status := seeded;
      order := keys;
      SeededKeys(data.groups);
      SeededValues(data.groups);
      KeyOrderListed(data.groups);
    }

    /** get_history(start, size): shows the window and stores it as
        last_history; nothing is stored when the random start cannot be drawn. */
    method GetHistory(start: Option<int>, size: nat, pick: nat) returns (r: Result<seq<string>>)
      requires Valid()
      modifies this
      ensures Valid() && order == old(order)
      ensures var h := History(lines, start, size, pick);
        && (h.Err? ==> r == Err(h.error) && status == old(status))
        && (h.Ok? ==> r == Ok(h.value.lines) && status == old(status)[LastHistoryKey := Slice(h.value.window)])
    {
      var first: int;
      if start.Some? {
        first := start.value;
      } else {
        var drawn := RandInt(0, |lines| - size, pick);
        if drawn.Err? {
          return Err(drawn.error);
        }
        first := drawn.value;
      }
      var window := Window(|lines|, first, size);
      status := status[LastHistoryKey := Slice(window)];
      r := Ok(Lines(lines, window));
    }

    /** The grep command: matches from grep_start on, at most max_grep of them. */
    method GrepHistory(query: string) returns (reply: seq<string>)
      requires Valid()
      ensures reply == GrepReply(lines, status[GrepStartKey].number, status[MaxGrepKey].number, query)
    {
      var maxGrep: nat := status[MaxGrepKey].number;
      var results := CollectMatches(lines, query, status[GrepStartKey].number);
      var count := |results|;
      if count > maxGrep {
        results := results[..maxGrep];
      }
      reply := [Header(count, query)] + results + [Footer(|results|, count, query)];
    }

    /** run_commands: "context", "more", "history [n]" and "grep <query>";
        None for anything else. */
    method RunCommands(raw: string, pick: nat) returns (r: Result<Option<seq<string>>>)
      requires Valid()
      modifies this
      ensures Valid() && order == old(order)
      ensures var c := CommandOf(Clean(raw, true).words);
        match HistoryRequest(c, old(status)[LastHistoryKey].span)
        case Some((start, size)) =>
          var h := History(lines, start, size, pick);
          && (h.Err? ==> r == Err(h.error) && status == old(status))
          && (h.Ok? ==> r == Ok(Some(h.value.lines)) && status == old(status)[LastHistoryKey := Slice(h.value.window)])
        case None =>
          && status == old(status)
          && r == if c.Grep? then Ok(Some(GrepReply(lines, status[GrepStartKey].number, status[MaxGrepKey].number, Query(raw))))
                  else Ok(None)
    {
      var c := ReadCommand(raw);
      var request := HistoryRequest(c, status[LastHistoryKey].span);
      if request.Some? {
        var shown := GetHistory(request.value.0, request.value.1, pick);
        r := Wrap(shown);
      } else if c.Grep? {
        var results := GrepHistory(Query(raw));
        r := Ok(Some(results));
      } else {
        r := Ok(None);
      }
    }

    /** set_status(property, value) */
    method SetStatus(property: string, value: string) returns (reply: Result<string>)
      requires Valid()
      modifies this
      ensures Valid() && order == old(order)
      ensures var a := Assign(old(status), property, value);
        && (a.Err? ==> reply == Err(a.error) && status == old(status))
        && (a.Ok? ==> reply == Ok(a.value.reply) && status == a.value.status)
    {
      if property !in status {
        return Ok("invalid status to set " + property);
      }
      match status[property] {
        case Flag(_) =>
          if value == "" {
            return Err(IndexError);
          }
          status := status[property := Flag(value[0] == 't')];
          reply := Ok("set");
        case Number(_) =>
          if IsDigits(value) {
            status := status[property := Number(ParseNat(value))];
            reply := Ok("set");
          } else {
            reply := Ok("invalid value");
          }
        case Slice(_) =>
          reply := Ok("you cannot set that");
      }
      AssignWellFormed(old(status), data.groups, property, value);
    }

    /** reply_to_user(raw_text) */
    method ReplyToUser(raw: string, matches: (string, string) -> bool, draws: Draws) returns (r: Result<seq<string>>)
      requires Valid()
      modifies this
      ensures Valid() && order == old(order)
      ensures var plan := ReplyPlan(data, old(status), lines, raw, matches, draws);
        && (plan.Err? ==> r == Err(plan.error) && status == old(status))
        && (plan.Ok? ==> r == Ok(plan.value.replies))
        && (plan.Ok? && plan.value.window.None? ==> status == old(status))
        && (plan.Ok? && plan.value.window.Some? ==>
              status == old(status)[LastHistoryKey := Slice(plan.value.window.value)])
    {
      var selected := SelectReplies(data, status, raw, matches, draws);
      if selected.Err? {
        return Err(selected.error);
      }
      var found := selected.value;

      // nothing to say: maybe quote some history
      if found == [] && RandInt(1, 10, draws.historyRoll).value < 3 && Truthy(status[HistoryKey]) {
        var shown := GetHistory(None, 5, draws.historyStart);
        if shown.Err? {
          return Err(shown.error);
        }
        found := found + shown.value;
        assert found == History(lines, None, 5, draws.historyStart).value.lines;
      }

      // all caps in, all caps out
      if IsUpper(raw) {
        found := UpperAll(found);
      }
      r := Ok(found);
    }

    /** The "status" admin command: every status entry, described in short
        mode, one per line. */
    method ReportStatus() returns (text: string)
      requires Valid()
      ensures text == StatusText(status, order)
    {
      var report := JoinItems(Described("short", StatusEntries(status, order)), "\n", "", "", 0);
      text := report.value;
    }

    /** run_admin_commands: "ping", "status", "reply <text>", "set <key> <value>"
        and "quit"; the messages go to the log conversation. */
    method RunAdminCommands(raw: string, matches: (string, string) -> bool, draws: Draws) returns (r: Result<AdminAction>)
      requires Valid()
      modifies this
      ensures Valid() && order == old(order)
      ensures match AdminCommandOf(Clean(raw, true).words)
        case Ping => r == Ok(ToLog(["pinged"])) && status == old(status)
        case Report => r == Ok(ToLog([StatusText(old(status), order)])) && status == old(status)
        case ReplyTo(text) =>
          var plan := ReplyPlan(data, old(status), lines, text, matches, draws);
          && (plan.Err? ==> r == Err(plan.error) && status == old(status))
          && (plan.Ok? ==> r == Ok(ToLog(plan.value.replies)))
          && (plan.Ok? && plan.value.window.None? ==> status == old(status))
          && (plan.Ok? && plan.value.window.Some? ==>
                status == old(status)[LastHistoryKey := Slice(plan.value.window.value)])
        case Set(property, value) =>
          var a := Assign(old(status), property, value);
          && (a.Err? ==> r == Err(a.error) && status == old(status))
          && (a.Ok? ==> r == Ok(ToLog([a.value.reply])) && status == a.value.status)
        case Stop => r == Ok(Quit) && status == old(status)
        case Unknown => r == Ok(NoAction) && status == old(status)
    {
      var command := ReadAdminCommand(raw);
      match command {
        case Ping =>
          r := Ok(ToLog(["pinged"]));
        case Report =>
          var report := ReportStatus();
          r := Ok(ToLog([report]));
        case ReplyTo(text) =>
          var replies := ReplyToUser(text, matches, draws);
          if replies.Err? {
            return Err(replies.error);
          }
          r := Ok(ToLog(replies.value));
        case Set(property, value) =>
          var reply := SetStatus(property, value);
          if reply.Err? {
            return Err(reply.error);
          }
          r := Ok(ToLog([reply.value]));
        case Stop =>
          r := Ok(Quit);
        case Unknown =>
          r := Ok(NoAction);
      }
    }
  }

  /** A get_history result as run_commands returns it. */
  function Wrap(shown: Result<seq<string>>): (r: Result<Option<seq<string>>>)
    ensures shown.Err? ==> r == Err(shown.error)
    ensures shown.Ok? ==> r == Ok(Some(shown.value))
  {
    var lines :- shown;
    Ok(Some(lines))
  }
}
