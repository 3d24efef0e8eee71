/** The general helpers of utils.py: clamping, input cleaning, Python-style safe
    indexing, the text formatting helpers (newline, join_items, description,
    convert_items) and the token cursor that command_parser hands to commands. */
module Utils {
  import opened Common
  import opened PyStrings

  /** clamp(value, lo, hi) = max(lo, min(value, hi)). */
  function Clamp(value: int, lo: int, hi: int): (r: int)
    ensures lo <= value <= hi ==> r == value
    ensures value < lo ==> r == lo
    ensures lo <= hi && hi < value ==> r == hi
    ensures hi < lo ==> r == lo
  {
    Max(lo, Min(value, hi))
  }

  /** clean returns a list of words when asked to split, and one line otherwise;
      an empty text gives the list [""] in both modes. */
  datatype Cleaned = Words(words: seq<string>) | Line(line: string)

  function Clean(text: string, split: bool): (r: Cleaned)
    ensures text == "" ==> r == Words([""])
    ensures text != "" ==> (r.Words? <==> split)
    ensures text != "" && split ==>
      forall k :: 0 <= k < |r.words| ==> IsToken(r.words[k]) && NoUpper(r.words[k])
    ensures text != "" && split ==> (r.words == [] <==> AllSpace(text))
  {
    if text != "" then
      var lowered := Lower(Strip(text));
      var words := Split(lowered);
      SplitNoUpper(lowered);
      SplitEmpty(lowered);
      assert AllSpace(lowered) <==> AllSpace(Strip(text)) by {
        assert forall i :: 0 <= i < |lowered| ==> lowered[i] == LowerChar(Strip(text)[i]);
      }
      if split then Words(words) else Line(Join(" ", words))
    else
      Words([""])
  }

  /** The one-line form of clean, unfolded. */
  lemma CleanLineOf(text: string)
    requires text != ""
    ensures Clean(text, false) == Line(Join(" ", Split(Lower(Strip(text)))))
  {
  }

  /** The words clean returns are the words of its joined form. */
  lemma CleanJoinsWords(text: string)
    requires text != ""
    ensures Clean(text, false) == Line(Join(" ", Clean(text, true).words))
  {
  }

  lemma LowerIdentity(s: string)
    requires NoUpper(s)
    ensures Lower(s) == s
  {
  }

  /** Cleaning words that are already lower-case and single-spaced gives them back. */
  lemma CleanOfJoinedWords(ws: seq<string>)
    requires |ws| > 0
    requires forall k :: 0 <= k < |ws| ==> IsToken(ws[k]) && NoUpper(ws[k])
    ensures Clean(Join(" ", ws), true) == Words(ws)
  {
    var j := Join(" ", ws);
    JoinStartsWith(" ", ws);
    assert j != "";
    JoinStripped(" ", ws);
    StripIdentity(j);
    JoinNoUpper(" ", ws);
    LowerIdentity(j);
    SplitJoin(ws);
  }

  /** The one-line form of clean is a fixed point of clean. */
  lemma CleanLineIdempotent(text: string)
    requires !AllSpace(text)
    ensures Clean(text, false).Line?
    ensures Clean(Clean(text, false).line, false) == Clean(text, false)
  {
    var ws := Clean(text, true).words;
    assert ws != [];
    CleanOfJoinedWords(ws);
    var line := Join(" ", ws);
    JoinStartsWith(" ", ws);
    assert line != "";
  }

  /** get_item returns one value for one index and a list otherwise. */
  datatype Picked<T> = One(item: T) | Many(items: seq<T>)

  /** sequence[index] as Python indexes a list (a negative index counts from the
      end), or default where that raises IndexError. */
  function At<T>(s: seq<T>, index: int, default: T): T {
    if 0 <= index < |s| then s[index]
    else if -|s| <= index < 0 then s[|s| + index]
    else default
  }

  method GetItem<T>(s: seq<T>, indexes: seq<int>, default: T) returns (r: Picked<T>)
    ensures |indexes| == 1 ==> r.One?
    ensures |indexes| == 1 && 0 <= indexes[0] < |s| ==> r.item == s[indexes[0]]
    ensures |indexes| == 1 && -|s| <= indexes[0] < 0 ==> r.item == s[|s| + indexes[0]]
    ensures |indexes| == 1 && (|s| <= indexes[0] || indexes[0] < -|s|) ==> r.item == default
    ensures |indexes| != 1 ==>
      r.Many? && |r.items| == |indexes| &&
      forall k :: 0 <= k < |indexes| ==> r.items[k] == At(s, indexes[k], default)
  {
    r := Many([]);
    for k := 0 to |indexes|
      invariant |indexes| == 1 && k == 1 ==> r == One(At(s, indexes[0], default))
      invariant |indexes| != 1 ==> r.Many? && |r.items| == k
      invariant |indexes| != 1 ==> forall j :: 0 <= j < k ==> r.items[j] == At(s, indexes[j], default)
    {
      var item := At(s, indexes[k], default);
      if |indexes| == 1 {
        r := One(item);
      } else {
        r := Many(r.items + [item]);
      }
    }
  }

  /** newline(text, number): the stripped text followed by exactly `number` newlines. */
  function Newline(text: string, number: nat): (r: string)
    ensures |r| >= number
    ensures forall i :: |r| - number <= i < |r| ==> r[i] == '\n'
    ensures |r| == number || !IsSpace(r[|r| - number - 1])
    ensures r[..|r| - number] == Strip(text)
  {
    var body := Strip(text);
    var r := body + Newlines(number);
    assert r[..|body|] == body;
    r
  }

  /** A text that is already stripped only gains its newlines. */
  lemma NewlineOfStripped(text: string, number: nat)
    requires IsStripped(text)
    ensures Newline(text, number) == text + Newlines(number)
  {
    StripIdentity(text);
  }

  lemma NewlineIdempotent(text: string, number: nat)
    ensures Newline(Newline(text, number), number) == Newline(text, number)
  {
    StripTrailingSpace(Strip(text), Newlines(number));
    StripIdempotent(text);
  }

  /** The values the formatting helpers handle: strings and integers. */
  datatype Item = Str(text: string) | Int(number: int)

  /** The two conversions convert_items is asked for: str and int. */
  datatype Target = ToStr | ToInt

  /** str(item) */
  function StrOf(item: Item): string {
    match item
    case Str(s) => s
    case Int(n) => IntToString(n)
  }

  /** type_(item), or default where that raises ValueError. */
  function Converted(item: Item, target: Target, default: Item): (r: Item)
    ensures target == ToStr ==> r == Str(StrOf(item))
    ensures target == ToInt ==> r.Int? || r == default
    ensures target == ToInt && item.Str? && ParseInt(item.text).Some? ==> r == Int(ParseInt(item.text).value)
    ensures target == ToInt && item.Str? && ParseInt(item.text).None? ==> r == default
    ensures target == ToInt && item.Int? ==> r == item
  {
    match target
    case ToStr => Str(StrOf(item))
    case ToInt =>
      match item
      case Int(_) => item
      case Str(s) =>
        match ParseInt(s)
        case Some(n) => Int(n)
        case None => default
  }

  /** convert_items: each entry replaced, in place, by its conversion. */
  method ConvertItems(items: array<Item>, target: Target, default: Item)
    modifies items
    ensures forall i :: 0 <= i < items.Length ==> items[i] == Converted(old(items[i]), target, default)
  {
    for i := 0 to items.Length
      invariant forall j :: 0 <= j < i ==> items[j] == Converted(old(items[j]), target, default)
      invariant forall j :: i <= j < items.Length ==> items[j] == old(items[j])
    {
      items[i] := Converted(items[i], target, default);
    }
  }

  /** Converting an integer to str and back to int gives the integer back. */
  lemma ConvertRoundTrip(n: int, default: Item)
    ensures Converted(Converted(Int(n), ToStr, default), ToInt, default) == Int(n)
  {
    ParseIntOfString(n);
  }

  /** [str(item) for item in items] */
  function Texts(items: seq<Item>): (r: seq<string>)
    ensures |r| == |items|
    ensures forall i :: 0 <= i < |items| ==> r[i] == StrOf(items[i])
  {
    if |items| == 0 then [] else [StrOf(items[0])] + Texts(items[1..])
  }

  /** [text.strip() for text in texts] */
  function StripAll(texts: seq<string>): (r: seq<string>)
    ensures |r| == |texts|
    ensures forall i :: 0 <= i < |texts| ==> r[i] == Strip(texts[i])
  {
    if |texts| == 0 then [] else [Strip(texts[0])] + StripAll(texts[1..])
  }

  /** What join_items does once its list of texts is built: strip each, join them
      with the separator, strip the result, add `end` unless the text already ends
      with it, then prefix `start` and close with exactly `newlines` newlines. */
  function Finish(output: seq<string>, separator: string, start: string, end: string, newlines: nat): string {
    var text := Strip(Join(separator, StripAll(output)));
    var ended := if EndsWith(text, end) then text else text + end;
    start + Newline(ended, newlines)
  }

  /** A truthy description_mode. */
  type ModeName = m: string | m != [] witness "short"

  /** One argument tuple `(name, *values)` of join_items in description mode. */
  datatype Entry = Entry(name: string, values: seq<Item>)

  /** The items join_items receives: plain values, or tuples to describe. */
  datatype JoinInput = Plain(items: seq<Item>) | Described(mode: ModeName, entries: seq<Entry>)

  predicate KnownMode(mode: string) {
    mode == "short" || mode == "long"
  }

  /** description(name, *values, mode, end, newlines). */
  function Description(name: string, values: seq<Item>, mode: string, end: string, newlines: nat): (r: Result<string>)
    ensures r.Err? <==> !KnownMode(mode)
    ensures r.Err? ==> r.error == ValueError
  {
    var texts := Texts(values);
    if mode == "short" then
      Ok(Newline(name + ": " + Finish(texts, ", ", "", end, 0), newlines))
    else if mode == "long" then
      Ok(Newline(Finish([Title(name) + ":"] + texts, "\n\t", "", end, 0), newlines))
    else
      Err(ValueError)
  }

  /** The descriptions join_items builds for its tuples (default end "\n", no newlines). */
  function Descriptions(entries: seq<Entry>, mode: string): (r: seq<string>)
    requires KnownMode(mode)
    ensures |r| == |entries|
  {
    if entries == [] then []
    else
      var last := entries[|entries| - 1];
      Descriptions(entries[..|entries| - 1], mode) + [Description(last.name, last.values, mode, "\n", 0).value]
  }

  lemma DescriptionsSnoc(entries: seq<Entry>, mode: string, i: nat)
    requires KnownMode(mode) && i < |entries|
    ensures Descriptions(entries[..i + 1], mode) ==
      Descriptions(entries[..i], mode) + [Description(entries[i].name, entries[i].values, mode, "\n", 0).value]
  {
    var prefix := entries[..i + 1];
    assert prefix[..i] == entries[..i];
    assert prefix[i] == entries[i];
  }

  /** The plain branch of join_items: the items copied, converted to str in place,
      and read back. */
  method ConvertedTexts(items: seq<Item>) returns (output: seq<string>)
    ensures output == Texts(items)
  {
    var a := new Item[|items|](i requires 0 <= i < |items| => items[i]);
    ConvertItems(a, ToStr, Str(""));
    output := [];
    for i := 0 to a.Length
      invariant |output| == i
      invariant forall j :: 0 <= j < i ==> output[j] == StrOf(items[j])
    {
      output := output + [a[i].text];
    }
  }

  /** The description branch of join_items: one description per tuple, in order;
      the first description that raises ends the loop. */
  method DescribeEntries(entries: seq<Entry>, mode: ModeName) returns (r: Result<seq<string>>)
    ensures r.Err? <==> |entries| > 0 && !KnownMode(mode)
    ensures r.Err? ==> r.error == ValueError
    ensures KnownMode(mode) ==> r == Ok(Descriptions(entries, mode))
  {
    var output: seq<string> := [];
    for i := 0 to |entries|
      invariant i > 0 ==> KnownMode(mode)
      invariant KnownMode(mode) ==> output == Descriptions(entries[..i], mode)
    {
      var d := Description(entries[i].name, entries[i].values, mode, "\n", 0);
      if d.Err? {
        return Err(d.error);
      }
      DescriptionsSnoc(entries, mode, i);
      output := output + [d.value];
    }
    assert entries[..|entries|] == entries;
    r := Ok(output);
  }

  /** join_items(*items, separator, description_mode, start, end, newlines). */
  method JoinItems(input: JoinInput, separator: string, start: string, end: string, newlines: nat)
    returns (r: Result<string>)
    ensures input.Plain? ==> r == Ok(Finish(Texts(input.items), separator, start, end, newlines))
    ensures input.Described? ==>
      (r.Err? <==> |input.entries| > 0 && !KnownMode(input.mode))
    ensures input.Described? && r.Err? ==> r.error == ValueError
    ensures input.Described? && KnownMode(input.mode) ==>
      r == Ok(Finish(Descriptions(input.entries, input.mode), separator, start, end, newlines))
  {
    var output: seq<string>;
    match input {
      case Plain(items) =>
        output := ConvertedTexts(items);
      case Described(mode, entries) =>
        var described := DescribeEntries(entries, mode);
        if described.Err? {
          return Err(described.error);
        }
        output := described.value;
    }
    r := Ok(Finish(output, separator, start, end, newlines));
  }

  predicate StrippedWords(texts: seq<string>) {
    forall k :: 0 <= k < |texts| ==> texts[k] != [] && IsStripped(texts[k])
  }

  /** With stripped non-empty texts and a whitespace `end`, join_items is the
      plain join between `start` and the newlines. */
  lemma FinishOfStripped(output: seq<string>, separator: string, start: string, end: string, newlines: nat)
    requires StrippedWords(output)
    requires AllSpace(end)
    ensures Finish(output, separator, start, end, newlines) == start + Join(separator, output) + Newlines(newlines)
  {
    forall k | 0 <= k < |output| ensures Strip(output[k]) == output[k] {
      StripIdentity(output[k]);
    }
    assert StripAll(output) == output;
    var j := Join(separator, output);
    JoinStripped(separator, output);
    StripIdentity(j);
    StripTrailingSpace(j, end);
  }

  lemma ConcatStripped(a: string, b: string)
    requires a != [] && !IsSpace(a[0])
    requires b != [] && !IsSpace(b[|b| - 1])
    ensures IsStripped(a + b)
  {
    var c := a + b;
    assert c[0] == a[0];
    assert c[|c| - 1] == b[|b| - 1];
  }

  /** A `name: ` label in front of a stripped text leaves it stripped. */
  lemma LabelStripped(name: string, text: string)
    requires name != [] && IsStripped(name)
    requires text != [] && IsStripped(text)
    ensures IsStripped(name + ": " + text)
  {
    var prefix := name + ": ";
    assert prefix[0] == name[0];
    ConcatStripped(prefix, text);
  }

  /** With stripped non-empty texts, a whitespace `end` and no newlines,
      join_items is the plain join, itself stripped. */
  lemma FinishJoined(separator: string, texts: seq<string>, end: string)
    requires |texts| > 0 && StrippedWords(texts)
    requires AllSpace(end)
    ensures Finish(texts, separator, "", end, 0) == Join(separator, texts)
    ensures Join(separator, texts) != [] && IsStripped(Join(separator, texts))
  {
    FinishOfStripped(texts, separator, "", end, 0);
    JoinStripped(separator, texts);
    JoinStartsWith(separator, texts);
  }

  /** "short" descriptions read `name: v1, v2, ...`. */
  lemma DescriptionShort(name: string, values: seq<Item>, end: string, newlines: nat)
    requires name != [] && IsStripped(name)
    requires |values| > 0 && StrippedWords(Texts(values))
    requires AllSpace(end)
    ensures Description(name, values, "short", end, newlines) ==
      Ok(name + ": " + Join(", ", Texts(values)) + Newlines(newlines))
  {
    var texts := Texts(values);
    FinishJoined(", ", texts, end);
    LabelStripped(name, Join(", ", texts));
    NewlineOfStripped(name + ": " + Join(", ", texts), newlines);
  }

  /** "long" descriptions put the title-cased name first, then one tab-indented
      line per value. */
  lemma DescriptionLong(name: string, values: seq<Item>, end: string, newlines: nat)
    requires IsStripped(name)
    requires StrippedWords(Texts(values))
    requires AllSpace(end)
    ensures Description(name, values, "long", end, newlines) ==
      Ok(Join("\n\t", [Title(name) + ":"] + Texts(values)) + Newlines(newlines))
  {
    var lines := [Title(name) + ":"] + Texts(values);
    LongLines(name, Texts(values));
    FinishJoined("\n\t", lines, end);
    NewlineOfStripped(Join("\n\t", lines), newlines);
  }

  /** The lines of a "long" description: the title line, then the values. */
  lemma LongLines(name: string, texts: seq<string>)
    requires IsStripped(name)
    requires StrippedWords(texts)
    ensures StrippedWords([Title(name) + ":"] + texts)
  {
    var head := Title(name) + ":";
    assert head != [] && IsStripped(head) by {
      if name != [] {
        assert head[0] == Title(name)[0];
      }
    }
    var lines := [head] + texts;
    forall k | 0 <= k < |lines| ensures lines[k] != [] && IsStripped(lines[k]) {
      if k > 0 {
        assert lines[k] == texts[k - 1];
      }
    }
  }

  /** Every mode other than "short" and "long" raises ValueError. */
  lemma DescriptionUnknownMode(name: string, values: seq<Item>, mode: string, end: string, newlines: nat)
    requires !KnownMode(mode)
    ensures Description(name, values, mode, end, newlines) == Err(ValueError)
  {
  }

  /** The token lists clean(text) can return: the [""] of an empty text, or words. */
  predicate WellFormedTokens(tokens: seq<string>) {
    tokens == [""] || forall k :: 0 <= k < |tokens| ==> IsToken(tokens[k])
  }

  lemma FinishOfTokens(tokens: seq<string>)
    requires WellFormedTokens(tokens)
    ensures Finish(tokens, " ", "", "", 0) == Join(" ", tokens)
  {
    if tokens == [""] {
      assert StripAll(tokens) == [""];
      assert Strip("") == "";
    } else {
      forall k | 0 <= k < |tokens| ensures tokens[k] != [] && IsStripped(tokens[k]) {
      }
      FinishOfStripped(tokens, " ", "", "", 0);
    }
  }

  /** The generator that command_parser returns, as a cursor over the words of the
      message: next() reads the word under the cursor and moves past it; sending
      an integer moves the cursor; "remaining", "all" and "raw" read without moving. */
  class CommandParser {
    const raw: string
    const tokens: seq<string>
    var index: nat

    ghost predicate Valid()
      reads this
    {
      tokens == Clean(raw, true).words
    }

    constructor (text: string)
      ensures Valid() && raw == text && index == 0
    {
      raw := text;
      tokens := Clean(text, true).words;
      index := 0;
    }

    /** next(generator) */
    method Next() returns (item: string)
      modifies this
      ensures index == old(index) + 1
      ensures item == if old(index) < |tokens| then tokens[old(index)] else ""
    {
      var picked := GetItem(tokens, [index], "");
      item := picked.item;
      index := index + 1;
    }

    /** generator.send(k) for an integer k */
    method Advance(k: int) returns (item: string)
      modifies this
      ensures index == Clamp(old(index) + k, 0, |tokens|)
      ensures item == if index < |tokens| then tokens[index] else ""
    {
      index := Clamp(index + k, 0, |tokens|);
      var picked := GetItem(tokens, [index], "");
      item := picked.item;
    }

    /** generator.send("remaining"): the words not yet read, single-spaced. */
    method Remaining() returns (text: string)
      requires Valid()
      ensures text == Join(" ", tokens[Min(index, |tokens|)..])
    {
      var rest := tokens[Min(index, |tokens|)..];
      var items := seq(|rest|, i requires 0 <= i < |rest| => Str(rest[i]));
      var joined := JoinItems(Plain(items), " ", "", "", 0);
      assert Texts(items) == rest;
      assert WellFormedTokens(rest) by {
        if raw != "" {
          assert forall k :: 0 <= k < |rest| ==> rest[k] == tokens[Min(index, |tokens|) + k];
        } else if rest != [] {
          assert rest == [""];
        }
      }
      FinishOfTokens(rest);
      text := joined.value;
    }

    /** generator.send("all") */
    method All() returns (all: seq<string>)
      requires Valid()
      ensures all == Clean(raw, true).words
    {
      all := tokens;
    }

    /** generator.send("raw") */
    method Raw() returns (text: string)
      ensures text == raw
    {
      text := raw;
    }
  }

  /** A command is read word by word; past the last word the stream yields "" for ever. */
  method ReadThreeWords(text: string) returns (a: string, b: string, c: string)
    ensures var ws := Clean(text, true).words;
      a == At(ws, 0, "") && b == At(ws, 1, "") && c == At(ws, 2, "")
  {
    var parser := new CommandParser(text);
    a := parser.Next();
    b := parser.Next();
    c := parser.Next();
  }
}
