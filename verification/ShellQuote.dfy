/**
 Launch arguments on their way to an app: typed intent extras, quoted, joined with spaces by adb, and
 tokenised again by the device's shell (POSIX.1-2017 Shell Command Language, sections 2.2.1, 2.2.2 and 2.3).
 */
module ShellQuote {

  import opened Options

  datatype Value = Flag(b: bool) | Number(n: int) | List(items: seq<string>) | Text(s: string)

  type Arguments = seq<(string, Value)>

  // ---------------------------------------------------------------- the shell

  /** Characters that, unquoted, make the line more than a list of words. */
  const SPECIAL: set<char> := {'|', '&', ';', '<', '>', '(', ')', '$', '`', '"', '\n', '*', '?', '[', ']', '#', '~', '=', '%', '{', '}', '!'}

  predicate IsBlank(c: char) {
    c == ' ' || c == '\t'
  }

  function Ended(word: Option<string>): seq<string> {
    if word.None? then [] else [word.value]
  }

  function Continued(word: Option<string>): string {
    if word.None? then "" else word.value
  }

  /** The words of a line, after quote removal; none when anything in it is active, or a quote is left open.
      `word` is the one being read. */
  function Words(line: string, word: Option<string>, quoted: bool): Option<seq<string>>
    decreases |line|
  {
    if line == [] then
      if quoted then None else Some(Ended(word))
    else
      var c := line[0];
      var rest := line[1..];
      if quoted then
        if c == '\'' then Words(rest, word, false) else Words(rest, Some(Continued(word) + [c]), true)
      else if c == '\'' then Words(rest, Some(Continued(word)), true)
      else if c == '\\' then
        if rest == [] then None
        else if rest[0] == '\n' then Words(rest[1..], word, false)
        else Words(rest[1..], Some(Continued(word) + [rest[0]]), false)
      else if IsBlank(c) then
        var more :- Words(rest, None, false);
        Some(Ended(word) + more)
      else if c in SPECIAL then None
      else Words(rest, Some(Continued(word) + [c]), false)
  }

  /** What the device's shell makes of a line. */
  function Shell(line: string): Option<seq<string>> {
    Words(line, None, false)
  }

  // ---------------------------------------------------------------- quoting

  /** Each quote closed, escaped and reopened. */
  function Escaped(s: string): string {
    if s == [] then [] else (if s[0] == '\'' then "'\\''" else [s[0]]) + Escaped(s[1..])
  }

  function Quote(s: string): string {
    "'" + Escaped(s) + "'"
  }

  /** An escaped quote: out of the quotes, the quote, and in again. */
  lemma ReadsEscapedQuote(word: string, more: string)
    ensures Words("'\\''" + more, Some(word), true) == Words(more, Some(word + "'"), true)
  {
    var line := "'\\''" + more;
    var escape := "\\''" + more;
    var reopen := "'" + more;
    assert line[1..] == escape && escape[1..][0] == '\'' && escape[1..][1..] == reopen && reopen[1..] == more;
    assert Words(line, Some(word), true) == Words(escape, Some(word), false);
    assert Words(escape, Some(word), false) == Words(reopen, Some(word + ['\'']), false);
    assert Words(reopen, Some(word + ['\'']), false) == Words(more, Some(word + ['\'']), true);
  }

  lemma {:induction false} ReadsEscaped(s: string, word: string, tail: string)
    ensures Words(Escaped(s) + ("'" + tail), Some(word), true) == Words(tail, Some(word + s), false)
    decreases |s|
  {
    var line := Escaped(s) + ("'" + tail);
    if s == [] {
      assert line == "'" + tail && line[1..] == tail;
      assert word + s == word;
    } else {
      var more := Escaped(s[1..]) + ("'" + tail);
      assert word + s == (word + [s[0]]) + s[1..];
      if s[0] == '\'' {
        assert line == "'\\''" + more;
        ReadsEscapedQuote(word, more);
      } else {
        assert line == [s[0]] + more && line[1..] == more;
      }
      ReadsEscaped(s[1..], word + [s[0]], tail);
    }
  }

  /** A quoted string, wherever it stands, adds exactly itself to the word. */
  lemma ReadsQuoted(s: string, word: Option<string>, tail: string)
    ensures Words(Quote(s) + tail, word, false) == Words(tail, Some(Continued(word) + s), false)
  {
    var line := Quote(s) + tail;
    assert line[1..] == Escaped(s) + ("'" + tail);
    ReadsEscaped(s, Continued(word), tail);
  }

  /** Characters that stand for themselves unquoted. */
  predicate Plain(s: string) {
    forall c | c in s :: c !in SPECIAL && !IsBlank(c) && c != '\'' && c != '\\'
  }

  lemma {:induction false} ReadsPlain(s: string, word: Option<string>, tail: string)
    requires Plain(s) && (s != [] || word.Some?)
    ensures Words(s + tail, word, false) == Words(tail, Some(Continued(word) + s), false)
    decreases |s|
  {
    var line := s + tail;
    if s == [] {
      assert line == tail && Continued(word) + s == word.value;
    } else {
      assert s[0] in s;
      assert line[1..] == s[1..] + tail;
      assert Continued(word) + s == (Continued(word) + [s[0]]) + s[1..];
      ReadsPlain(s[1..], Some(Continued(word) + [s[0]]), tail);
    }
  }

  // ---------------------------------------------------------------- extras

  function DigitChar(k: nat): (c: char)
    requires k < 10
    ensures '0' <= c <= '9' && c as int == '0' as int + k
  {
    ('0' as int + k) as char
  }

  function Digits(n: nat): (s: string)
    ensures s != []
  {
    if n < 10 then [DigitChar(n)] else Digits(n / 10) + [DigitChar(n % 10)]
  }

  /** How a whole number is written. */
  function Decimal(n: int): (s: string)
    ensures s != []
  {
    if n < 0 then "-" + Digits(-n) else Digits(n)
  }

  function Joined(items: seq<string>): string {
    if items == [] then ""
    else if |items| == 1 then items[0]
    else items[0] + "," + Joined(items[1..])
  }

  predicate Fits32(n: int) {
    -0x8000_0000 <= n <= 0x7FFF_FFFF
  }

  function FlagOf(v: Value): string {
    match v
    case Flag(_) => "--ez"
    case Number(n) => if Fits32(n) then "--ei" else "--el"
    case List(_) => "--esa"
    case Text(_) => "--es"
  }

  function Rendered(v: Value): string {
    match v
    case Flag(b) => if b then "true" else "false"
    case Number(n) => Decimal(n)
    case List(items) => Quote(Joined(items))
    case Text(s) => Quote(s)
  }

  function Extra(key: string, v: Value): seq<string> {
    [FlagOf(v), Quote(key), Rendered(v)]
  }

  function Extras(args: Arguments): seq<string> {
    if args == [] then [] else Extra(args[0].0, args[0].1) + Extras(args[1..])
  }

  /** `adb shell` joins its arguments with spaces. */
  function Line(words: seq<string>): string {
    if words == [] then ""
    else if |words| == 1 then words[0]
    else words[0] + " " + Line(words[1..])
  }

  // ---------------------------------------------------------------- the words the device gets

  /** What a value should arrive as. */
  function Meant(v: Value): string {
    match v
    case Flag(b) => if b then "true" else "false"
    case Number(n) => Decimal(n)
    case List(items) => Joined(items)
    case Text(s) => s
  }

  function MeantWords(args: Arguments): seq<string> {
    if args == [] then [] else [FlagOf(args[0].1), args[0].0, Meant(args[0].1)] + MeantWords(args[1..])
  }

  /** A rendering that the shell reads as one given word. */
  ghost predicate ReadsAs(rendered: string, meant: string) {
    forall tail: string :: Words(rendered + tail, None, false) == Words(tail, Some(meant), false)
  }

  lemma {:induction false} DigitsArePlain(n: nat)
    ensures Plain(Digits(n))
  {
    if n >= 10 { DigitsArePlain(n / 10); }
  }

  lemma PlainReadsAs(s: string)
    requires Plain(s) && s != []
    ensures ReadsAs(s, s)
  {
    forall tail: string ensures Words(s + tail, None, false) == Words(tail, Some(s), false) {
      ReadsPlain(s, None, tail);
      assert "" + s == s;
    }
  }

  lemma QuotedReadsAs(s: string)
    ensures ReadsAs(Quote(s), s)
  {
    forall tail: string ensures Words(Quote(s) + tail, None, false) == Words(tail, Some(s), false) {
      ReadsQuoted(s, None, tail);
      assert "" + s == s;
    }
  }

  lemma RenderedReadsAs(v: Value)
    ensures ReadsAs(Rendered(v), Meant(v))
  {
    match v
    case Flag(b) => PlainReadsAs(Rendered(v));
    case Number(n) => DigitsArePlain(if n < 0 then -n else n); PlainReadsAs(Decimal(n));
    case List(items) => QuotedReadsAs(Joined(items));
    case Text(s) => QuotedReadsAs(s);
  }

  lemma FlagReadsAs(v: Value)
    ensures ReadsAs(FlagOf(v), FlagOf(v))
  {
    PlainReadsAs(FlagOf(v));
  }

  /** Renderings joined with spaces are read as their words. */
  ghost predicate AllRead(words: seq<string>, meant: seq<string>) {
    |words| == |meant| && forall i | 0 <= i < |words| :: ReadsAs(words[i], meant[i])
  }

  lemma {:induction false} LineReads(words: seq<string>, meant: seq<string>)
    requires AllRead(words, meant)
    ensures Shell(Line(words)) == Some(meant)
    decreases |words|
  {
    if |words| == 1 {
      assert words[0] + [] == words[0];
      assert Words(words[0] + [], None, false) == Words([], Some(meant[0]), false);
      assert meant == [meant[0]];
    } else if |words| > 1 {
      var tail := " " + Line(words[1..]);
      assert Line(words) == words[0] + tail;
      assert Words(words[0] + tail, None, false) == Words(tail, Some(meant[0]), false);
      assert tail[1..] == Line(words[1..]);
      LineReads(words[1..], meant[1..]);
      assert meant == [meant[0]] + meant[1..];
    }
  }

  lemma {:induction false} ExtrasRead(args: Arguments)
    ensures AllRead(Extras(args), MeantWords(args))
    decreases |args|
  {
    hide ReadsAs, FlagOf, Rendered, Meant, Quote;
    if args != [] {
      FlagReadsAs(args[0].1);
      QuotedReadsAs(args[0].0);
      RenderedReadsAs(args[0].1);
      ExtrasRead(args[1..]);
    }
  }

  /** Whatever the keys and values hold, the shell reads exactly the flag, key and value of each, in order,
      and runs and expands nothing. */
  lemma ShellReadsWhatWasMeant(args: Arguments)
    ensures Shell(Line(Extras(args))) == Some(MeantWords(args))
  {
    ExtrasRead(args);
    LineReads(Extras(args), MeantWords(args));
  }

  // ---------------------------------------------------------------- what the app reads

  predicate EndsInBackslash(s: string) {
    s != [] && s[|s| - 1] == '\\'
  }

  /** How the intent parser splits a string-array extra: at each comma that does not follow a backslash. */
  function SplitFrom(s: string, piece: string): (pieces: seq<string>)
    ensures pieces != []
    decreases |s|
  {
    if s == [] then [piece]
    else if s[0] == ',' && !EndsInBackslash(piece) then [piece] + SplitFrom(s[1..], [])
    else SplitFrom(s[1..], piece + [s[0]])
  }

  function Split(s: string): seq<string> {
    SplitFrom(s, [])
  }

  /** Nothing in the item splits it. */
  predicate Unsplit(item: string) {
    forall i | 0 <= i < |item| && item[i] == ',' :: i > 0 && item[i - 1] == '\\'
  }

  /** The lists that arrive as they were. */
  predicate Splittable(items: seq<string>) {
    items != [] && (forall item | item in items :: Unsplit(item)) && forall i | 0 <= i < |items| - 1 :: !EndsInBackslash(items[i])
  }

  lemma {:induction false} SplitsAtSeparator(item: string, at: nat, tail: string)
    requires Unsplit(item) && at <= |item|
    ensures SplitFrom(item[at..] + tail, item[..at]) == SplitFrom(tail, item)
    decreases |item| - at
  {
    var s := item[at..] + tail;
    if at == |item| {
      assert s == tail && item[..at] == item;
    } else {
      assert s[0] == item[at] && s[1..] == item[at + 1..] + tail;
      assert item[..at] + [item[at]] == item[..at + 1];
      SplitsAtSeparator(item, at + 1, tail);
    }
  }

  lemma {:induction false} SplitUndoesJoin(items: seq<string>)
    requires Splittable(items)
    ensures Split(Joined(items)) == items
    decreases |items|
  {
    var item := items[0];
    assert item[..0] == [] && item[0..] == item;
    if |items| == 1 {
      SplitsAtSeparator(item, 0, []);
      assert item + [] == item && items == [item];
    } else {
      var tail := "," + Joined(items[1..]);
      SplitsAtSeparator(item, 0, tail);
      assert Joined(items) == item + tail && tail[1..] == Joined(items[1..]);
      SplitUndoesJoin(items[1..]);
      assert items == [item] + items[1..];
    }
  }

  /** What splitting gives can be joined and split again. */
  lemma {:induction false} SplitIsSplittable(s: string, piece: string)
    requires Unsplit(piece)
    ensures Splittable(SplitFrom(s, piece))
    decreases |s|
  {
    if s != [] {
      if s[0] == ',' && !EndsInBackslash(piece) {
        SplitIsSplittable(s[1..], []);
        var rest := SplitFrom(s[1..], []);
        assert forall i | 0 < i < |[piece] + rest| :: ([piece] + rest)[i] == rest[i - 1];
      } else {
        SplitIsSplittable(s[1..], piece + [s[0]]);
      }
    }
  }

  /** A list arrives as it was exactly when no item splits and none but the last ends in a backslash. */
  lemma ListsArriveExactly(items: seq<string>)
    ensures Split(Joined(items)) == items <==> Splittable(items)
  {
    SplitIsSplittable(Joined(items), []);
    if Splittable(items) { SplitUndoesJoin(items); }
  }

  function DigitOf(c: char): Option<nat> {
    if '0' <= c <= '9' then Some(c as int - '0' as int) else None
  }

  function ReadDigits(s: string): Option<nat> {
    if s == [] then None
    else
      var last :- DigitOf(s[|s| - 1]);
      if |s| == 1 then Some(last)
      else
        var more :- ReadDigits(s[..|s| - 1]);
        Some(10 * more + last)
  }

  function ReadDecimal(s: string): Option<int> {
    if s != [] && s[0] == '-' then
      var n: int :- ReadDigits(s[1..]);
      Some(-n)
    else
      ReadDigits(s)
  }

  /** An extra as the app finds it: an app that asks for another type finds none. */
  datatype Found = BoolExtra(b: bool) | IntExtra(n: int) | LongExtra(n: int) | StringArrayExtra(items: seq<string>) | StringExtra(s: string)

  /** The extra an app finds for a flag and a word. */
  function ReadValue(flag: string, word: string): Option<Found> {
    if flag == "--ez" then Some(BoolExtra(word == "true"))
    else if flag == "--ei" then
      var n :- ReadDecimal(word);
      if -0x8000_0000 <= n < 0x8000_0000 then Some(IntExtra(n)) else None
    else if flag == "--el" then
      var n :- ReadDecimal(word);
      Some(LongExtra(n))
    else if flag == "--esa" then Some(StringArrayExtra(Split(word)))
    else if flag == "--es" then Some(StringExtra(word))
    else None
  }

  /** What an argument is to arrive as: its own type and value, a number as an int where it is one. */
  function Arrives(v: Value): Found {
    match v
    case Flag(b) => BoolExtra(b)
    case Number(n) => if -0x8000_0000 <= n < 0x8000_0000 then IntExtra(n) else LongExtra(n)
    case List(items) => StringArrayExtra(items)
    case Text(s) => StringExtra(s)
  }

  function AllArrive(args: Arguments): seq<(string, Found)> {
    if args == [] then [] else [(args[0].0, Arrives(args[0].1))] + AllArrive(args[1..])
  }

  function ReadArguments(words: seq<string>): Option<seq<(string, Found)>> {
    if words == [] then Some([])
    else if |words| < 3 then None
    else
      var v :- ReadValue(words[0], words[2]);
      var more :- ReadArguments(words[3..]);
      Some([(words[1], v)] + more)
  }

  lemma {:induction false} DigitsRoundTrip(n: nat)
    ensures ReadDigits(Digits(n)) == Some(n)
    ensures forall c | c in Digits(n) :: '0' <= c <= '9'
    decreases n
  {
    if n >= 10 {
      DigitsRoundTrip(n / 10);
      assert Digits(n)[..|Digits(n)| - 1] == Digits(n / 10);
    }
  }

  lemma DecimalRoundTrip(n: int)
    ensures ReadDecimal(Decimal(n)) == Some(n)
  {
    hide Digits, ReadDigits;
    var digits := Digits(if n < 0 then -n else n);
    DigitsRoundTrip(if n < 0 then -n else n);
    if n < 0 {
      assert Decimal(n) == "-" + digits && Decimal(n)[1..] == digits;
    } else {
      assert Decimal(n) == digits && digits[0] in digits;
    }
  }

  /** The value is no list, or a list that arrives as it was. */
  predicate Survives(v: Value) {
    v.List? ==> Splittable(v.items)
  }

  lemma ValueRoundTrip(v: Value)
    ensures ReadValue(FlagOf(v), Meant(v)).Some?
    ensures ReadValue(FlagOf(v), Meant(v)) == Some(Arrives(v)) <==> Survives(v)
  {
    hide Split, ReadDecimal, Decimal, Joined, Splittable;
    match v
    case Flag(b) =>
    case Number(n) => DecimalRoundTrip(n);
    case List(items) => ListsArriveExactly(items);
    case Text(s) =>
  }

  lemma {:induction false} WordsRoundTrip(args: Arguments)
    ensures ReadArguments(MeantWords(args)).Some?
    ensures ReadArguments(MeantWords(args)) == Some(AllArrive(args)) <==> forall a | a in args :: Survives(a.1)
    decreases |args|
  {
    hide ReadValue, FlagOf, Meant, Arrives, Survives;
    if args != [] {
      var words := MeantWords(args);
      assert words[3..] == MeantWords(args[1..]);
      ValueRoundTrip(args[0].1);
      WordsRoundTrip(args[1..]);
      assert args == [args[0]] + args[1..];
      var (got, rest) := (ReadValue(words[0], words[2]).value, ReadArguments(words[3..]).value);
      FirstAndRest((args[0].0, got), (args[0].0, Arrives(args[0].1)), rest, AllArrive(args[1..]));
    }
  }

  lemma FirstAndRest<T>(a: T, b: T, s: seq<T>, t: seq<T>)
    ensures [a] + s == [b] + t <==> a == b && s == t
  {
    if [a] + s == [b] + t {
      assert ([a] + s)[0] == ([b] + t)[0] && ([a] + s)[1..] == ([b] + t)[1..];
      assert ([a] + s)[1..] == s && ([b] + t)[1..] == t;
    }
  }

  /** Through quoting, adb's joining, the shell, and the intent parser, arguments always reach the app, and as they
      were, each with its key, its type and its value, exactly when every list among them survives. */
  lemma ArgumentsArriveExactly(args: Arguments)
    ensures Shell(Line(Extras(args))).Some?
    ensures var read := ReadArguments(Shell(Line(Extras(args))).value);
            read.Some? && (read == Some(AllArrive(args)) <==> forall a | a in args :: a.1.List? ==> Splittable(a.1.items))
  {
    hide Survives, AllArrive, ReadArguments, Splittable;
    ShellReadsWhatWasMeant(args);
    WordsRoundTrip(args);
    SurvivesIs();
  }

  lemma SurvivesIs()
    ensures forall v :: Survives(v) <==> (v.List? ==> Splittable(v.items))
  {
  }

  // ---------------------------------------------------------------- what is accepted

  /** The shared check on a list: it has items, and none holds a comma or ends in a backslash. */
  predicate AcceptedList(items: seq<string>) {
    items != [] && forall item | item in items :: ',' !in item && !EndsInBackslash(item)
  }

  predicate Accepted(v: Value) {
    v.List? ==> AcceptedList(v.items)
  }

  /** A list with items, all of them among these. */
  predicate MadeOf(others: seq<string>, items: seq<string>) {
    others != [] && forall item | item in others :: item in items
  }

  /** A list the check accepts survives, and so do its items in any other list, in any order and number. */
  lemma AcceptedListsSplit(items: seq<string>, others: seq<string>)
    requires AcceptedList(items) && MadeOf(others, items)
    ensures Split(Joined(others)) == others
  {
    forall item | item in others ensures Unsplit(item) {
      forall i | 0 <= i < |item| ensures item[i] != ',' { assert item[i] in item; }
    }
    SplitUndoesJoin(others);
  }

  /** Of lists without commas, the check refuses exactly those whose items do not survive in every order. */
  lemma RefusedListsBreak(items: seq<string>)
    requires items != [] && forall item | item in items :: ',' !in item
    ensures AcceptedList(items) <==> forall others | MadeOf(others, items) :: Split(Joined(others)) == others
  {
    hide Split, Joined;
    if AcceptedList(items) {
      forall others | MadeOf(others, items) ensures Split(Joined(others)) == others { AcceptedListsSplit(items, others); }
    } else {
      var item :| item in items && EndsInBackslash(item);
      var others := [item, item];
      assert EndsInBackslash(others[0]) && MadeOf(others, items);
      ListsArriveExactly(others);
      assert Split(Joined(others)) != others;
    }
  }

  /** Accepted arguments reach the app as they were. */
  lemma ArgumentsArrive(args: Arguments)
    requires forall a | a in args :: Accepted(a.1)
    ensures Shell(Line(Extras(args))).Some?
    ensures ReadArguments(Shell(Line(Extras(args))).value) == Some(AllArrive(args))
  {
    hide Shell, Line, Extras, AllArrive, ReadArguments;
    forall a | a in args && a.1.List? ensures Splittable(a.1.items) {
      AcceptedListsSplit(a.1.items, a.1.items);
      ListsArriveExactly(a.1.items);
    }
    ArgumentsArriveExactly(args);
  }
}
