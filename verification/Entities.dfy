/**
 Decoding XML character references in seven passes over the text, one kind of reference each.
 */
module Entities {

  import opened Options

  /** Text as code points. */
  type Text = seq<int>

  const MAX_CODE_POINT := 0x10FFFF
  const AMPERSAND: int := '&' as int
  const SEMICOLON: int := ';' as int

  datatype Kind = Hex | Dec | Quot | Apos | Lt | Gt | Amp

  /** The passes, in order. */
  const PASSES: seq<Kind> := [Hex, Dec, Quot, Apos, Lt, Gt, Amp]

  function Codes(s: string): (t: Text)
    ensures |t| == |s|
    ensures forall i | 0 <= i < |s| :: t[i] == s[i] as int
  {
    seq(|s|, i requires 0 <= i < |s| => s[i] as int)
  }

  predicate Named(k: Kind) {
    !k.Hex? && !k.Dec?
  }

  /** How a reference of this kind begins; a named one is all there is of it. */
  function Opening(k: Kind): Text {
    match k
    case Hex => Codes("&#x")
    case Dec => Codes("&#")
    case Quot => Codes("&quot;")
    case Apos => Codes("&apos;")
    case Lt => Codes("&lt;")
    case Gt => Codes("&gt;")
    case Amp => Codes("&amp;")
  }

  function NameMeans(k: Kind): int {
    match k
    case Quot => '"' as int
    case Apos => '\'' as int
    case Lt => '<' as int
    case Gt => '>' as int
    case _ => AMPERSAND
  }

  function DigitValue(k: Kind, c: int): Option<nat> {
    if '0' as int <= c <= '9' as int then Some(c - '0' as int)
    else if k.Hex? && 'a' as int <= c <= 'f' as int then Some(c - 'a' as int + 10)
    else if k.Hex? && 'A' as int <= c <= 'F' as int then Some(c - 'A' as int + 10)
    else None
  }

  /** How many digits the text begins with. */
  function DigitCount(k: Kind, s: Text): (n: nat)
    ensures n <= |s|
    ensures forall i | 0 <= i < n :: DigitValue(k, s[i]).Some?
    ensures n < |s| ==> DigitValue(k, s[n]).None?
  {
    if s == [] || DigitValue(k, s[0]).None? then 0 else 1 + DigitCount(k, s[1..])
  }

  predicate AllDigits(k: Kind, s: Text) {
    forall c | c in s :: DigitValue(k, c).Some?
  }

  function Number(k: Kind, s: Text): nat
    requires AllDigits(k, s)
  {
    if s == [] then 0 else (if k.Hex? then 16 else 10) * Number(k, s[..|s| - 1]) + DigitValue(k, s[|s| - 1]).value
  }

  datatype Matched = Matched(length: nat, means: nat)

  /** The reference of this kind that the text begins with. */
  function Match(k: Kind, s: Text): (m: Option<Matched>)
    ensures m.Some? ==> 0 < m.value.length <= |s| && s[0] == AMPERSAND
  {
    var opening := Opening(k);
    if !(opening <= s) then None
    else if Named(k) then Some(Matched(|opening|, NameMeans(k)))
    else
      var digits := s[|opening|..];
      var n := DigitCount(k, digits);
      if n == 0 || n == |digits| || digits[n] != SEMICOLON then None
      else Some(Matched(|opening| + n + 1, Number(k, digits[..n])))
  }

  /** One `replace` over the whole text; a number that is no code point throws. */
  function Pass(k: Kind, s: Text): Option<Text>
    decreases |s|
  {
    if s == [] then Some([])
    else
      var m := Match(k, s);
      if m.None? then
        var rest :- Pass(k, s[1..]);
        Some([s[0]] + rest)
      else if m.value.means > MAX_CODE_POINT then None
      else
        var rest :- Pass(k, s[m.value.length..]);
        Some([m.value.means] + rest)
  }

  function Passes(ks: seq<Kind>, s: Text): Option<Text>
    decreases |ks|
  {
    if ks == [] then Some(s)
    else
      var t :- Pass(ks[0], s);
      Passes(ks[1..], t)
  }

  function Decode(s: Text): Option<Text> {
    Passes(PASSES, s)
  }

  // ---------------------------------------------------------------- escaped text

  /** A character as written: itself, or a reference. */
  datatype Written = Literal(c: int) | Ref(kind: Kind, digits: Text)

  predicate Valid(w: Written) {
    match w
    case Literal(c) => c != AMPERSAND && 0 <= c <= MAX_CODE_POINT
    case Ref(k, digits) =>
      if Named(k) then digits == []
      else digits != [] && AllDigits(k, digits) && Number(k, digits) <= MAX_CODE_POINT
  }

  function Means(w: Written): int
    requires Valid(w)
  {
    match w
    case Literal(c) => c
    case Ref(k, digits) => if Named(k) then NameMeans(k) else Number(k, digits)
  }

  function Printed(w: Written): Text {
    match w
    case Literal(c) => [c]
    case Ref(k, digits) => Opening(k) + if Named(k) then [] else digits + [SEMICOLON]
  }

  function PrintedAll(ws: seq<Written>): Text {
    if ws == [] then [] else Printed(ws[0]) + PrintedAll(ws[1..])
  }

  ghost predicate AllValid(ws: seq<Written>) {
    forall i | 0 <= i < |ws| :: Valid(ws[i])
  }

  function Meaning(ws: seq<Written>): Text
    requires AllValid(ws)
  {
    if ws == [] then [] else [Means(ws[0])] + Meaning(ws[1..])
  }

  /** The references of one kind replaced by what they mean. */
  function Resolved(k: Kind, ws: seq<Written>): (rs: seq<Written>)
    requires AllValid(ws)
    ensures |rs| == |ws|
    ensures forall i | 0 <= i < |ws| :: rs[i] == if ws[i].Ref? && ws[i].kind == k then Literal(Means(ws[i])) else ws[i]
  {
    seq(|ws|, i requires 0 <= i < |ws| => if ws[i].Ref? && ws[i].kind == k then Literal(Means(ws[i])) else ws[i])
  }

  // ---------------------------------------------------------------- one pass

  lemma {:induction false} CountsDigits(k: Kind, digits: Text, tail: Text)
    requires AllDigits(k, digits)
    ensures DigitCount(k, digits + [SEMICOLON] + tail) == |digits|
    decreases |digits|
  {
    var s := digits + [SEMICOLON] + tail;
    if digits != [] {
      assert digits[0] in digits && s[0] == digits[0];
      assert s[1..] == digits[1..] + [SEMICOLON] + tail;
      CountsDigits(k, digits[1..], tail);
    }
  }

  lemma NumberMatches(k: Kind, digits: Text, tail: Text)
    requires !Named(k) && digits != [] && AllDigits(k, digits)
    ensures Match(k, Opening(k) + (digits + [SEMICOLON] + tail)) == Some(Matched(|Opening(k)| + |digits| + 1, Number(k, digits)))
  {
    hide Number, AllDigits, DigitValue, DigitCount, NameMeans;
    var opening, rest := Opening(k), digits + [SEMICOLON] + tail;
    var s := opening + rest;
    assert opening <= s && s[|opening|..] == rest;
    CountsDigits(k, digits, tail);
    assert rest[..|digits|] == digits;
  }

  lemma NameMatches(k: Kind, tail: Text)
    requires Named(k)
    ensures Match(k, Opening(k) + tail) == Some(Matched(|Opening(k)|, NameMeans(k)))
  {
    hide NameMeans;
  }

  /** A reference is matched by its own pass, whole. */
  lemma MatchesOwn(w: Written, tail: Text)
    requires Valid(w) && w.Ref?
    ensures Match(w.kind, Printed(w) + tail) == Some(Matched(|Printed(w)|, Means(w)))
  {
    hide Match, Opening, Number, NameMeans, AllDigits;
    if Named(w.kind) {
      assert Printed(w) == Opening(w.kind);
      NameMatches(w.kind, tail);
    } else {
      assert Printed(w) + tail == Opening(w.kind) + (w.digits + [SEMICOLON] + tail);
      NumberMatches(w.kind, w.digits, tail);
    }
  }

  /** A reference is not matched by another kind's pass. */
  lemma MatchesNoOther(k: Kind, w: Written, tail: Text)
    requires Valid(w) && w.Ref? && w.kind != k
    ensures Match(k, Printed(w) + tail).None?
  {
    var s := Printed(w) + tail;
    if w.kind.Dec? {
      assert s[2] == w.digits[0] && w.digits[0] in w.digits;
    } else if w.kind.Hex? {
      assert s[2] == Opening(Hex)[2];
    } else if k.Hex? || k.Dec? {
      assert s[1] == Opening(w.kind)[1];
    } else {
      NamesDiffer(k, w.kind, s);
    }
  }

  lemma NamesDiffer(k: Kind, own: Kind, s: Text)
    requires Named(k) && Named(own) && k != own && Opening(own) <= s
    ensures !(Opening(k) <= s)
  {
    assert s[1] == Opening(own)[1] && s[2] == Opening(own)[2];
    assert Opening(k)[1] != Opening(own)[1] || Opening(k)[2] != Opening(own)[2];
  }

  /** A character that no reference of the kind begins at is copied. */
  lemma CopiesFirst(k: Kind, s: Text)
    requires s != [] && Match(k, s).None?
    ensures Pass(k, s) == if Pass(k, s[1..]).None? then None else Some([s[0]] + Pass(k, s[1..]).value)
  {
  }

  /** Text without ampersands passes through. */
  lemma {:induction false} PassesThrough(k: Kind, t: Text, tail: Text)
    requires AMPERSAND !in t
    ensures Pass(k, t + tail) == if Pass(k, tail).None? then None else Some(t + Pass(k, tail).value)
    decreases |t|
  {
    hide Pass, Match;
    if t == [] {
      assert t + tail == tail;
      if Pass(k, tail).Some? { assert t + Pass(k, tail).value == Pass(k, tail).value; }
    } else {
      assert (t + tail)[0] == t[0] && t[0] in t;
      assert (t + tail)[1..] == t[1..] + tail;
      CopiesFirst(k, t + tail);
      PassesThrough(k, t[1..], tail);
      if Pass(k, tail).Some? { assert [t[0]] + (t[1..] + Pass(k, tail).value) == t + Pass(k, tail).value; }
    }
  }

  lemma NoAmpersandAfterFirst(w: Written)
    requires Valid(w) && w.Ref?
    ensures Printed(w) != [] && Printed(w)[0] == AMPERSAND && AMPERSAND !in Printed(w)[1..]
  {
    var p := Printed(w);
    forall i | 1 <= i < |p| ensures p[i] != AMPERSAND {
      if !Named(w.kind) && |Opening(w.kind)| <= i < |p| - 1 {
        assert p[i] == w.digits[i - |Opening(w.kind)|] && p[i] in w.digits;
      }
    }
  }

  /** One pass replaces the references of its kind and leaves everything else. */
  lemma {:induction false} PassResolves(k: Kind, ws: seq<Written>)
    requires AllValid(ws)
    ensures Pass(k, PrintedAll(ws)) == Some(PrintedAll(Resolved(k, ws)))
    decreases |ws|
  {
    if ws != [] {
      var w, tail := ws[0], PrintedAll(ws[1..]);
      PassResolves(k, ws[1..]);
      assert Resolved(k, ws)[1..] == Resolved(k, ws[1..]);
      FirstResolves(k, w, tail);
      if w.Ref? && w.kind == k {
        assert Resolved(k, ws)[0] == Literal(Means(w));
      } else {
        assert Resolved(k, ws)[0] == w;
      }
    }
  }

  lemma FirstResolves(k: Kind, w: Written, tail: Text)
    requires Valid(w) && Pass(k, tail).Some?
    ensures var first := if w.Ref? && w.kind == k then [Means(w)] else Printed(w);
            Pass(k, Printed(w) + tail) == Some(first + Pass(k, tail).value)
  {
    hide Match, Opening, Number;
    if w.Literal? {
      PassesThrough(k, [w.c], tail);
    } else if w.kind == k {
      MeansACodePoint(w);
      MatchesOwn(w, tail);
      assert (Printed(w) + tail)[|Printed(w)|..] == tail;
    } else {
      MatchesNoOther(k, w, tail);
      NoAmpersandAfterFirst(w);
      PassesReference(k, Printed(w), tail);
    }
  }

  lemma MeansACodePoint(w: Written)
    requires Valid(w)
    ensures 0 <= Means(w) <= MAX_CODE_POINT
  {
  }

  /** A reference that is not matched is copied. */
  lemma PassesReference(k: Kind, p: Text, tail: Text)
    requires p != [] && AMPERSAND !in p[1..] && Match(k, p + tail).None? && Pass(k, tail).Some?
    ensures Pass(k, p + tail) == Some(p + Pass(k, tail).value)
  {
    hide Match, Pass;
    assert (p + tail)[1..] == p[1..] + tail && (p + tail)[0] == p[0];
    CopiesFirst(k, p + tail);
    PassesThrough(k, p[1..], tail);
    assert [p[0]] + (p[1..] + Pass(k, tail).value) == p + Pass(k, tail).value;
  }

  // ---------------------------------------------------------------- the seven passes

  /** No number stands for an ampersand. */
  ghost predicate NoNumericAmpersand(ws: seq<Written>)
    requires AllValid(ws)
  {
    forall i | 0 <= i < |ws| && ws[i].Ref? && !Named(ws[i].kind) :: Means(ws[i]) != AMPERSAND
  }

  lemma ResolvedIsValid(k: Kind, ws: seq<Written>)
    requires AllValid(ws) && NoNumericAmpersand(ws) && !k.Amp?
    ensures AllValid(Resolved(k, ws)) && NoNumericAmpersand(Resolved(k, ws))
    ensures Meaning(Resolved(k, ws)) == Meaning(ws)
  {
    SameMeaning(k, ws);
  }

  lemma {:induction false} SameMeaning(k: Kind, ws: seq<Written>)
    requires AllValid(ws) && NoNumericAmpersand(ws) && !k.Amp?
    ensures AllValid(Resolved(k, ws))
    ensures Meaning(Resolved(k, ws)) == Meaning(ws)
    decreases |ws|
  {
    hide Number, NameMeans;
    forall i | 0 <= i < |ws| ensures Valid(Resolved(k, ws)[i]) {
      MeansACodePoint(ws[i]);
      if ws[i].Ref? && Named(ws[i].kind) && ws[i].kind == k { OnlyAmpMeansAmpersand(k); }
    }
    if ws != [] {
      SameMeaning(k, ws[1..]);
      assert Resolved(k, ws)[1..] == Resolved(k, ws[1..]);
    }
  }

  lemma OnlyAmpMeansAmpersand(k: Kind)
    requires Named(k) && !k.Amp?
    ensures NameMeans(k) != AMPERSAND
  {
  }

  /** What is left after the passes of these kinds. */
  ghost predicate DoneWith(ws: seq<Written>, ks: seq<Kind>) {
    forall i | 0 <= i < |ws| && ws[i].Ref? :: ws[i].kind !in ks
  }

  lemma {:induction false} PassesResolve(ks: seq<Kind>, done: seq<Kind>, ws: seq<Written>) returns (rs: seq<Written>)
    requires AllValid(ws) && NoNumericAmpersand(ws) && Amp !in ks && DoneWith(ws, done)
    ensures AllValid(rs) && Meaning(rs) == Meaning(ws) && DoneWith(rs, done + ks)
    ensures forall more: seq<Kind> :: Passes(ks + more, PrintedAll(ws)) == Passes(more, PrintedAll(rs))
    decreases |ks|
  {
    hide PrintedAll, Resolved, Pass, Means, Valid;
    if ks == [] {
      rs := ws;
      assert done + ks == done;
      forall more: seq<Kind> ensures Passes(ks + more, PrintedAll(ws)) == Passes(more, PrintedAll(rs)) {
        assert ks + more == more;
      }
    } else {
      var next := Resolved(ks[0], ws);
      PassResolves(ks[0], ws);
      ResolvedIsValid(ks[0], ws);
      rs := PassesResolve(ks[1..], done + [ks[0]], next);
      assert done + [ks[0]] + ks[1..] == done + ks;
      forall more: seq<Kind> ensures Passes(ks + more, PrintedAll(ws)) == Passes(more, PrintedAll(rs)) {
        assert (ks + more)[1..] == ks[1..] + more;
      }
    }
  }

  /** With only ampersands left to resolve, the last pass gives the meaning. */
  lemma {:induction false} LastPassMeans(ws: seq<Written>)
    requires AllValid(ws) && DoneWith(ws, [Hex, Dec, Quot, Apos, Lt, Gt])
    ensures PrintedAll(Resolved(Amp, ws)) == Meaning(ws)
    decreases |ws|
  {
    hide Opening, Number, NameMeans;
    if ws != [] {
      LastPassMeans(ws[1..]);
      assert Resolved(Amp, ws)[1..] == Resolved(Amp, ws[1..]);
      assert ws[0].Ref? ==> ws[0].kind.Amp?;
      assert Printed(Resolved(Amp, ws)[0]) == [Means(ws[0])];
    }
  }

  /** However each character is written, decoding gives the text back, as long as no number stands for an
      ampersand. */
  lemma DecodeUndoesEscaping(ws: seq<Written>)
    requires AllValid(ws) && NoNumericAmpersand(ws)
    ensures Decode(PrintedAll(ws)) == Some(Meaning(ws))
  {
    hide PrintedAll, Resolved, Meaning;
    var six := [Hex, Dec, Quot, Apos, Lt, Gt];
    var rs := PassesResolve(six, [], ws);
    assert six + [Amp] == PASSES && [] + six == six;
    PassResolves(Amp, rs);
    LastPassMeans(rs);
    assert [Amp][1..] == [];
  }

  // ---------------------------------------------------------------- which writers are undone

  predicate CodePoints(s: Text) {
    forall c | c in s :: 0 <= c <= MAX_CODE_POINT
  }

  /** A writer: one way of writing each character, that means the character. */
  ghost predicate Writer(w: int -> Written) {
    forall c | 0 <= c <= MAX_CODE_POINT :: Right(w(c), c)
  }

  predicate Right(w: Written, c: int) {
    Valid(w) && Means(w) == c
  }

  function WrittenBy(w: int -> Written, s: Text): (ws: seq<Written>)
    ensures |ws| == |s| && forall i | 0 <= i < |s| :: ws[i] == w(s[i])
  {
    if s == [] then [] else [w(s[0])] + WrittenBy(w, s[1..])
  }

  lemma {:induction false} WrittenMeans(w: int -> Written, s: Text)
    requires Writer(w) && CodePoints(s)
    ensures AllValid(WrittenBy(w, s)) && Meaning(WrittenBy(w, s)) == s
    decreases |s|
  {
    if s != [] {
      assert s[0] in s && forall c | c in s[1..] :: c in s;
      WrittenMeans(w, s[1..]);
      forall i | 0 <= i < |s| ensures Valid(WrittenBy(w, s)[i]) && Means(WrittenBy(w, s)[i]) == s[i] {
        assert s[i] in s && Right(w(s[i]), s[i]);
      }
      assert WrittenBy(w, s)[1..] == WrittenBy(w, s[1..]);
      assert s == [s[0]] + s[1..];
    }
  }

  /** What is left after the numbers is decoded by the named passes. */
  lemma NamedPassesDecode(ws: seq<Written>)
    requires AllValid(ws) && NoNumericAmpersand(ws) && DoneWith(ws, [Hex, Dec])
    ensures Passes(PASSES[2..], PrintedAll(ws)) == Some(Meaning(ws))
  {
    hide PrintedAll, Resolved, Meaning;
    var four := [Quot, Apos, Lt, Gt];
    var rs := PassesResolve(four, [Hex, Dec], ws);
    assert four + [Amp] == PASSES[2..] && [Hex, Dec] + four == [Hex, Dec, Quot, Apos, Lt, Gt];
    PassResolves(Amp, rs);
    LastPassMeans(rs);
    assert [Amp][1..] == [];
  }

  const LESS_THAN := Ref(Lt, [])

  /** A character that is no reserved one, written without a name. */
  predicate Ordinary(w: Written) {
    Valid(w) && (w.Ref? ==> !Named(w.kind)) && Means(w) != AMPERSAND
  }

  /** After both passes for numbers, ordinary characters stand as themselves. */
  lemma NumbersResolve(ws: seq<Written>)
    requires forall i | 0 <= i < |ws| :: Ordinary(ws[i])
    ensures AllValid(ws) && AllValid(Resolved(Hex, ws))
    ensures Pass(Hex, PrintedAll(ws)) == Some(PrintedAll(Resolved(Hex, ws)))
    ensures Pass(Dec, PrintedAll(Resolved(Hex, ws))) == Some(Meaning(ws))
  {
    hide Match, Pass, Opening, Number;
    PassResolves(Hex, ws);
    var rs := Resolved(Hex, ws);
    forall i | 0 <= i < |ws| ensures Valid(rs[i]) { MeansACodePoint(ws[i]); }
    PassResolves(Dec, rs);
    StandsAsMeant(ws);
  }

  lemma {:induction false} StandsAsMeant(ws: seq<Written>)
    requires forall i | 0 <= i < |ws| :: Ordinary(ws[i])
    requires AllValid(ws) && AllValid(Resolved(Hex, ws))
    ensures PrintedAll(Resolved(Dec, Resolved(Hex, ws))) == Meaning(ws)
    decreases |ws|
  {
    hide Opening, Number;
    if ws != [] {
      var rs := Resolved(Dec, Resolved(Hex, ws));
      assert Resolved(Hex, ws)[1..] == Resolved(Hex, ws[1..]);
      StandsAsMeant(ws[1..]);
      assert rs[1..] == Resolved(Dec, Resolved(Hex, ws[1..]));
      assert rs[0] == Literal(Means(ws[0])) && Printed(rs[0]) == [Means(ws[0])];
    }
  }

  /** An ampersand written as a number stands as itself too early: what follows it is decoded with it. */
  lemma NumberedAmpersandStands(a: Written, ws: seq<Written>)
    requires Valid(a) && a.Ref? && !Named(a.kind) && Means(a) == AMPERSAND
    requires ws != [] && forall i | 0 <= i < |ws| :: Ordinary(ws[i])
    requires Ordinary(ws[0]) && Means(ws[0]) != '#' as int
    ensures AllValid(ws)
    ensures Passes(PASSES, PrintedAll([a] + ws)) == Passes(PASSES[2..], [AMPERSAND] + Meaning(ws))
  {
    hide Pass, Match, Number, Opening;
    NumbersResolve(ws);
    var tail, resolved := PrintedAll(ws), PrintedAll(Resolved(Hex, ws));
    assert ([a] + ws)[1..] == ws;
    FirstResolves(Hex, a, tail);
    if a.kind.Hex? {
      var s := [AMPERSAND] + resolved;
      NoReferenceBegins(ws);
      CopiesFirst(Dec, s);
      assert s[1..] == resolved;
    } else {
      FirstResolves(Dec, a, resolved);
    }
    assert PASSES[1..][1..] == PASSES[2..];
  }

  /** An ampersand before text that begins with neither a number sign nor one resolved is no number. */
  lemma NoReferenceBegins(ws: seq<Written>)
    requires ws != [] && forall i | 0 <= i < |ws| :: Ordinary(ws[i])
    requires AllValid(ws) && Means(ws[0]) != '#' as int
    ensures Match(Dec, [AMPERSAND] + PrintedAll(Resolved(Hex, ws))).None?
  {
    hide Number;
    var rs := Resolved(Hex, ws);
    var s := [AMPERSAND] + PrintedAll(rs);
    assert s[1] == Printed(rs[0])[0];
    assert Opening(Dec)[1] == '#' as int;
  }

  /** Decoding undoes a writer on every text exactly when the writer gives the ampersand its name. */
  lemma UndoesExactlyTheNamed(w: int -> Written)
    requires Writer(w)
    ensures (forall s | CodePoints(s) :: Decode(PrintedAll(WrittenBy(w, s))) == Some(s)) <==> w(AMPERSAND) == Ref(Amp, [])
  {
    hide Decode, PrintedAll;
    if w(AMPERSAND) == Ref(Amp, []) {
      forall s | CodePoints(s) ensures Decode(PrintedAll(WrittenBy(w, s))) == Some(s) { NamedIsUndone(w, s); }
    } else {
      NumberedIsNotUndone(w);
      assert CodePoints(Codes("&lt;"));
    }
  }

  lemma NamedIsUndone(w: int -> Written, s: Text)
    requires Writer(w) && w(AMPERSAND) == Ref(Amp, []) && CodePoints(s)
    ensures Decode(PrintedAll(WrittenBy(w, s))) == Some(s)
  {
    hide Decode, PrintedAll;
    var ws := WrittenBy(w, s);
    WrittenMeans(w, s);
    forall i | 0 <= i < |ws| && ws[i].Ref? && !Named(ws[i].kind) ensures Means(ws[i]) != AMPERSAND {
      assert s[i] in s && Right(w(s[i]), s[i]);
    }
    DecodeUndoesEscaping(ws);
  }

  /** `&lt;`, its ampersand written as a number, comes back as `<`. */
  lemma NumberedIsNotUndone(w: int -> Written)
    requires Writer(w) && w(AMPERSAND) != Ref(Amp, [])
    ensures Decode(PrintedAll(WrittenBy(w, Codes("&lt;")))) == Some(['<' as int])
  {
    hide PrintedAll, Pass, Meaning;
    var s := Codes("&lt;");
    var a, ws := w(AMPERSAND), WrittenBy(w, s[1..]);
    assert s[0] == AMPERSAND;
    NumberedName(w);
    WrittenMeans(w, s[1..]);
    assert forall i | 0 <= i < |ws| :: Ordinary(ws[i]);
    NumberedAmpersandStands(a, ws);
    assert [AMPERSAND] + s[1..] == s;
    NamedPassesDecode([LESS_THAN]);
    OneReference();
  }

  lemma OneReference()
    ensures PrintedAll([LESS_THAN]) == Codes("&lt;") && AllValid([LESS_THAN]) && Meaning([LESS_THAN]) == ['<' as int]
  {
    assert [LESS_THAN][1..] == [];
  }

  /** Without its name, an ampersand can only be written as a number, and `l`, `t` and `;` have none. */
  lemma NumberedName(w: int -> Written)
    requires Writer(w) && w(AMPERSAND) != Ref(Amp, [])
    ensures var a := w(AMPERSAND); Valid(a) && a.Ref? && !Named(a.kind) && Means(a) == AMPERSAND
    ensures Ordinary(w('l' as int)) && Ordinary(w('t' as int)) && Ordinary(w(SEMICOLON))
    ensures Means(w('l' as int)) == 'l' as int
  {
    assert Right(w(AMPERSAND), AMPERSAND) && Right(w('l' as int), 'l' as int);
    assert Right(w('t' as int), 't' as int) && Right(w(SEMICOLON), SEMICOLON);
  }

  // ---------------------------------------------------------------- escaped by the XML specification

  /** A character as XML escapes it: the five predefined entities by name, sections 2.4 and 4.6 of XML 1.0; anything
      else as itself, or where it is to be numbered as its number in the given base. */
  function Xml(c: int, base: Option<nat>): Text {
    if c == '&' as int then Codes("&amp;")
    else if c == '<' as int then Codes("&lt;")
    else if c == '>' as int then Codes("&gt;")
    else if c == '"' as int then Codes("&quot;")
    else if c == '\'' as int then Codes("&apos;")
    else if base == Some(16) && c >= 0 then Codes("&#x") + Numeral(c, 16) + Codes(";")
    else if base == Some(10) && c >= 0 then Codes("&#") + Numeral(c, 10) + Codes(";")
    else [c]
  }

  function XmlText(s: Text, base: Option<nat>): Text {
    if s == [] then [] else Xml(s[0], base) + XmlText(s[1..], base)
  }

  const NUMERALS: string := "0123456789abcdef"

  function Numeral(n: nat, base: nat): (t: Text)
    requires base == 10 || base == 16
    ensures t != []
  {
    if n < base then [NUMERALS[n] as int] else Numeral(n / base, base) + [NUMERALS[n % base] as int]
  }

  function BaseOf(k: Kind): nat {
    if k.Hex? then 16 else 10
  }

  lemma DigitIsRead(k: Kind, d: nat)
    requires !Named(k) && d < BaseOf(k)
    ensures DigitValue(k, NUMERALS[d] as int) == Some(d)
  {
  }

  lemma {:induction false} NumeralIsRead(k: Kind, n: nat)
    requires !Named(k)
    ensures AllDigits(k, Numeral(n, BaseOf(k))) && Number(k, Numeral(n, BaseOf(k))) == n
    decreases n
  {
    var base := BaseOf(k);
    DigitIsRead(k, n % base);
    var t := Numeral(n, base);
    if n < base {
      assert t[..0] == [];
    } else {
      NumeralIsRead(k, n / base);
      assert t[..|t| - 1] == Numeral(n / base, base);
    }
  }

  /** The same, as a character written. */
  function XmlWritten(c: int, base: Option<nat>): Written {
    if c == '&' as int then Ref(Amp, [])
    else if c == '<' as int then Ref(Lt, [])
    else if c == '>' as int then Ref(Gt, [])
    else if c == '"' as int then Ref(Quot, [])
    else if c == '\'' as int then Ref(Apos, [])
    else if base == Some(16) && c >= 0 then Ref(Hex, Numeral(c, 16))
    else if base == Some(10) && c >= 0 then Ref(Dec, Numeral(c, 10))
    else Literal(c)
  }

  lemma XmlIsWritten(c: int, base: Option<nat>)
    ensures Printed(XmlWritten(c, base)) == Xml(c, base)
  {
    hide Numeral;
    assert forall t: Text :: t + [] == t;
    assert Codes(";") == [SEMICOLON];
  }

  lemma XmlIsRight(c: int, base: Option<nat>)
    requires 0 <= c <= MAX_CODE_POINT
    ensures Right(XmlWritten(c, base), c)
  {
    hide Numeral, Number, AllDigits;
    NumeralIsRead(Hex, c);
    NumeralIsRead(Dec, c);
  }

  lemma {:induction false} XmlTextIsWritten(s: Text, base: Option<nat>)
    ensures PrintedAll(WrittenBy(c => XmlWritten(c, base), s)) == XmlText(s, base)
    decreases |s|
  {
    hide Xml, XmlWritten, Printed;
    if s != [] {
      var w := c => XmlWritten(c, base);
      XmlIsWritten(s[0], base);
      XmlTextIsWritten(s[1..], base);
      assert WrittenBy(w, s)[1..] == WrittenBy(w, s[1..]);
    }
  }

  /** Any text escaped as XML escapes it, its other characters as they are or numbered in hexadecimal or decimal,
      comes back. */
  lemma XmlTextComesBack(s: Text, base: Option<nat>)
    requires CodePoints(s)
    ensures Decode(XmlText(s, base)) == Some(s)
  {
    hide XmlWritten, XmlText, Decode, Right;
    var w := c => XmlWritten(c, base);
    forall c | 0 <= c <= MAX_CODE_POINT ensures Right(w(c), c) { XmlIsRight(c, base); }
    AmpersandIsNamed(base);
    XmlTextIsWritten(s, base);
    NamedIsUndone(w, s);
  }

  lemma AmpersandIsNamed(base: Option<nat>)
    ensures XmlWritten(AMPERSAND, base) == Ref(Amp, [])
  {
  }

  // ---------------------------------------------------------------- numbers that are no code point

  lemma {:induction false} ThrowsLater(k: Kind, p: Text, tail: Text)
    requires AMPERSAND !in p && Pass(k, tail).None?
    ensures Pass(k, p + tail).None?
    decreases |p|
  {
    hide Match;
    if p == [] {
      assert p + tail == tail;
    } else {
      assert (p + tail)[1..] == p[1..] + tail && (p + tail)[0] == p[0] && p[0] in p;
      ThrowsLater(k, p[1..], tail);
      assert Match(k, p + tail).None?;
    }
  }

  /** A hexadecimal number past the last code point, the first reference of the text, is refused whatever follows. */
  lemma TooLargeANumberThrows(p: Text, n: nat, tail: Text)
    requires AMPERSAND !in p
    ensures n > MAX_CODE_POINT ==> Decode(p + (Codes("&#x") + Numeral(n, 16) + Codes(";") + tail)) == None
  {
    hide Numeral, Number, Match;
    if n > MAX_CODE_POINT {
      var digits := Numeral(n, 16);
      NumeralIsRead(Hex, n);
      var s := Codes("&#x") + digits + Codes(";") + tail;
      assert s == Opening(Hex) + (digits + [SEMICOLON] + tail) by { assert Codes(";") == [SEMICOLON]; }
      NumberMatches(Hex, digits, tail);
      assert Pass(Hex, s).None?;
      ThrowsLater(Hex, p, s);
    }
  }
}
