/** Log commands as text: printed with fmt::format, told apart by prefix tests
    and read back with sscanf. */
module CommandText {
  import opened Types

  datatype Option<+T> = None | Some(value: T)

  // ---- Printing -----------------------------------------------------------

  const DIGITS := "0123456789"

  function PrintNat(n: nat): string {
    if n < 10 then [DIGITS[n]] else PrintNat(n / 10) + [DIGITS[n % 10]]
  }

  function PrintInt(n: int): string { if n < 0 then "-" + PrintNat(-n) else PrintNat(n) }

  function Prefix(c: Command): string {
    match c
    case Intra(_, _, _) => ""
    case Prepare(_, _, _) => "[PREPARE] "
    case Commit(_, _, _) => "[COMMIT] "
    case Abort(_, _, _) => "[ABORT] "
  }

  function Print(c: Command): string {
    Prefix(c) + (PrintInt(c.sender) + (" pays " + (PrintInt(c.receiver) + (" $" + PrintInt(c.amount)))))
  }

  // ---- Telling commands apart ---------------------------------------------

  datatype Kind = IntraKind | PrepareKind | CommitKind | AbortKind | OtherKind

  function KindOf(c: Command): Kind {
    match c
    case Intra(_, _, _) => IntraKind
    case Prepare(_, _, _) => PrepareKind
    case Commit(_, _, _) => CommitKind
    case Abort(_, _, _) => AbortKind
  }

  /** The first n characters, fewer when the text is shorter. */
  function Substr(text: string, n: nat): string { if |text| <= n then text else text[..n] }

  /** The tests on command[0] and on the substrings of lengths 9, 8 and 7. */
  function Classify(text: string): Kind {
    if text == "" || text[0] != '[' then IntraKind
    else if Substr(text, 9) == "[PREPARE]" then PrepareKind
    else if Substr(text, 8) == "[COMMIT]" then CommitKind
    else if Substr(text, 7) == "[ABORT]" then AbortKind
    else OtherKind
  }

  // ---- sscanf -------------------------------------------------------------

  predicate IsDigit(c: char) { '0' <= c <= '9' }

  predicate IsSpace(c: char) { c == ' ' || c == '\t' || c == '\n' || c == '\r' }

  function DigitValue(c: char): nat
    requires IsDigit(c)
  {
    c as int - '0' as int
  }

  function SkipSpace(s: string): string {
    if s != "" && IsSpace(s[0]) then SkipSpace(s[1..]) else s
  }

  /** The number of digits that s begins with. */
  function Span(s: string): (n: nat)
    ensures n <= |s| && forall i :: 0 <= i < n ==> IsDigit(s[i])
  {
    if s != "" && IsDigit(s[0]) then 1 + Span(s[1..]) else 0
  }

  function ValueOf(ds: string): nat
    requires forall i :: 0 <= i < |ds| ==> IsDigit(ds[i])
  {
    if ds == "" then 0 else 10 * ValueOf(ds[..|ds| - 1]) + DigitValue(ds[|ds| - 1])
  }

  function ReadNat(s: string): Option<(int, string)> {
    var n := Span(s);
    if n == 0 then None else Some((ValueOf(s[..n]), s[n..]))
  }

  function Negated(r: Option<(int, string)>): Option<(int, string)> {
    if r.None? then None else Some((-r.value.0, r.value.1))
  }

  /** The conversion %d: white space, an optional sign, digits. */
  function ReadInt(s: string): Option<(int, string)> {
    var t := SkipSpace(s);
    if t != "" && t[0] == '-' then Negated(ReadNat(t[1..]))
    else if t != "" && t[0] == '+' then ReadNat(t[1..])
    else ReadNat(t)
  }

  datatype Directive = Space | Literal(c: char) | Number

  /** A format string as its directives. */
  function Directives(format: string): seq<Directive> {
    if format == "" then []
    else if |format| >= 2 && format[0] == '%' && format[1] == 'd' then [Number] + Directives(format[2..])
    else [if IsSpace(format[0]) then Space else Literal(format[0])] + Directives(format[1..])
  }

  /** The numbers read, when the whole format matches. */
  function Scan(s: string, ds: seq<Directive>): Option<seq<int>>
    decreases |ds|
  {
    if ds == [] then Some([])
    else match ds[0]
         case Space => Scan(SkipSpace(s), ds[1..])
         case Literal(c) => if s != "" && s[0] == c then Scan(s[1..], ds[1..]) else None
         case Number =>
           match ReadInt(s)
           case None => None
           case Some((v, rest)) =>
             match Scan(rest, ds[1..])
             case None => None
             case Some(vs) => Some([v] + vs)
  }

  const INTRA_FORMAT := "%d pays %d $%d"
  const PREPARE_FORMAT := "[PREPARE] %d pays %d $%d"

  /** What the commit loops read out of a log command: intra-shard transfers and
      prepares only. */
  function Read(text: string): Option<Command> {
    match Classify(text)
    case IntraKind =>
      (match Scan(text, Directives(INTRA_FORMAT))
       case Some(v) => if |v| == 3 then Some(Intra(v[0], v[1], v[2])) else None
       case None => None)
    case PrepareKind =>
      (match Scan(text, Directives(PREPARE_FORMAT))
       case Some(v) => if |v| == 3 then Some(Prepare(v[0], v[1], v[2])) else None
       case None => None)
    case _ => None
  }

  // ---- Numbers ------------------------------------------------------------

  lemma {:induction false} NatDigits(n: nat)
    ensures PrintNat(n) != "" && forall i :: 0 <= i < |PrintNat(n)| ==> IsDigit(PrintNat(n)[i])
    ensures ValueOf(PrintNat(n)) == n
  {
    if n >= 10 {
      NatDigits(n / 10);
      var p := PrintNat(n / 10);
      assert PrintNat(n) == p + [DIGITS[n % 10]];
      assert PrintNat(n)[..|PrintNat(n)| - 1] == p;
      hide PrintNat;
    } else {
      assert ValueOf([]) == 0;
      assert PrintNat(n)[..0] == [];
    }
  }

  lemma {:induction false} SpanStops(ds: string, rest: string)
    requires forall i :: 0 <= i < |ds| ==> IsDigit(ds[i])
    requires rest == "" || !IsDigit(rest[0])
    ensures Span(ds + rest) == |ds|
  {
    if ds == "" {
      assert ds + rest == rest;
    } else {
      assert (ds + rest)[1..] == ds[1..] + rest;
      SpanStops(ds[1..], rest);
    }
  }

  lemma ReadNatPrinted(n: nat, rest: string)
    requires rest == "" || !IsDigit(rest[0])
    ensures ReadNat(PrintNat(n) + rest) == Some((n, rest))
  {
    NatDigits(n);
    var p := PrintNat(n);
    SpanStops(p, rest);
    assert (p + rest)[..|p|] == p && (p + rest)[|p|..] == rest;
  }

  lemma ReadIntPrinted(n: int, rest: string)
    requires rest == "" || !IsDigit(rest[0])
    ensures ReadInt(PrintInt(n) + rest) == Some((n, rest))
  {
    hide ReadNat, PrintNat;
    var s := PrintInt(n) + rest;
    if n < 0 {
      assert s[1..] == PrintNat(-n) + rest;
      ReadNatPrinted(-n, rest);
    } else {
      NatDigits(n);
      assert IsDigit(s[0]);
      ReadNatPrinted(n, rest);
    }
  }

  lemma StartsWithDigitOrMinus(n: int, rest: string)
    ensures PrintInt(n) + rest != "" && (IsDigit((PrintInt(n) + rest)[0]) || (PrintInt(n) + rest)[0] == '-')
  {
    if n < 0 { NatDigits(-n); } else { NatDigits(n); }
  }

  // ---- Whole commands -----------------------------------------------------

  /** Literal text as directives. */
  function Quoted(p: string): seq<Directive> {
    if p == "" then [] else [if IsSpace(p[0]) then Space else Literal(p[0])] + Quoted(p[1..])
  }

  /** No white space is followed by more of it: each run is one directive. */
  predicate SingleSpaced(s: string, upto: nat) {
    forall i :: 0 <= i < upto && i < |s| && IsSpace(s[i]) ==> i + 1 < |s| && !IsSpace(s[i + 1])
  }

  lemma {:induction false} LiteralsMatch(p: string, rest: string, ds: seq<Directive>)
    requires SingleSpaced(p + rest, |p|)
    ensures Scan(p + rest, Quoted(p) + ds) == Scan(rest, ds)
  {
    if p == "" {
      assert p + rest == rest && Quoted(p) + ds == ds;
    } else {
      var s := p + rest;
      var tail := p[1..] + rest;
      assert s[1..] == tail;
      assert (Quoted(p) + ds)[1..] == Quoted(p[1..]) + ds;
      assert SingleSpaced(tail, |p| - 1) by {
        forall i | 0 <= i < |p| - 1 && i < |tail| && IsSpace(tail[i]) ensures i + 1 < |tail| && !IsSpace(tail[i + 1]) {
          assert s[i + 1] == tail[i] && IsSpace(s[i + 1]);
        }
      }
      LiteralsMatch(p[1..], rest, ds);
      if IsSpace(p[0]) {
        assert s[0] == p[0] && !IsSpace(s[1]);
        assert SkipSpace(s) == tail;
      }
    }
  }

  lemma NumberMatches(n: int, rest: string, ds: seq<Directive>)
    requires rest == "" || !IsDigit(rest[0])
    ensures Scan(PrintInt(n) + rest, [Number] + ds) ==
            match Scan(rest, ds) case None => None case Some(vs) => Some([n] + vs)
  {
    ReadIntPrinted(n, rest);
    assert ([Number] + ds)[1..] == ds;
  }

  lemma ScanNothing()
    ensures Scan("", []) == Some([])
  {
  }

  const TAIL: seq<Directive> := [Number] + (Quoted(" pays ") + ([Number] + (Quoted(" $") + [Number])))

  /** The transfer after any prefix. */
  lemma ScanTransfer(s: int, r: int, a: int)
    ensures Scan(PrintInt(s) + (" pays " + (PrintInt(r) + (" $" + PrintInt(a)))), TAIL) == Some([s, r, a])
  {
    hide Scan, PrintInt, Quoted;
    ScanNothing();
    var t3 := PrintInt(a);
    assert t3 == PrintInt(a) + "" && [Number] + [] == [Number];
    NumberMatches(a, "", []);
    var t2 := " $" + t3;
    StartsWithDigitOrMinus(a, "");
    LiteralsMatch(" $", t3, [Number]);
    NumberMatches(r, t2, Quoted(" $") + [Number]);
    var t1 := PrintInt(r) + t2;
    StartsWithDigitOrMinus(r, t2);
    LiteralsMatch(" pays ", t1, [Number] + (Quoted(" $") + [Number]));
    NumberMatches(s, " pays " + t1, Quoted(" pays ") + ([Number] + (Quoted(" $") + [Number])));
    assert [s] + ([r] + ([a] + [])) == [s, r, a];
  }

  lemma NumberDirective(rest: string)
    ensures Directives("%d" + rest) == [Number] + Directives(rest)
  {
    assert ("%d" + rest)[2..] == rest;
  }

  lemma FormatsAreTails()
    ensures Directives(INTRA_FORMAT) == TAIL
    ensures Directives(PREPARE_FORMAT) == Quoted("[PREPARE] ") + TAIL
  {
    hide Directives, Quoted;
    assert Directives("") == [] by { NoDirectives(); }
    NumberDirective("");
    assert "%d" + "" == "%d" && [Number] + [] == [Number];
    TextDirectives(" $", "%d");
    NumberDirective(" $" + "%d");
    TextDirectives(" pays ", "%d" + (" $" + "%d"));
    NumberDirective(" pays " + ("%d" + (" $" + "%d")));
    assert INTRA_FORMAT == "%d" + (" pays " + ("%d" + (" $" + "%d")));
    TextDirectives("[PREPARE] ", INTRA_FORMAT);
    assert "[PREPARE] " + INTRA_FORMAT == PREPARE_FORMAT;
  }

  lemma NoDirectives()
    ensures Directives("") == []
  {
  }

  /** Text without a percent sign becomes literal directives. */
  lemma {:induction false} TextDirectives(p: string, rest: string)
    requires forall i :: 0 <= i < |p| ==> p[i] != '%'
    ensures Directives(p + rest) == Quoted(p) + Directives(rest)
  {
    if p == "" {
      assert p + rest == rest;
    } else {
      assert (p + rest)[1..] == p[1..] + rest && (p + rest)[0] == p[0];
      TextDirectives(p[1..], rest);
      var first := [if IsSpace(p[0]) then Space else Literal(p[0])];
      assert Directives(p + rest) == first + Directives(p[1..] + rest);
      hide Directives, IsSpace;
      assert first + (Quoted(p[1..]) + Directives(rest)) == Quoted(p) + Directives(rest);
    }
  }

  /** The prefix tests recognise every printed command. */
  lemma PrintedKind(c: Command)
    ensures Classify(Print(c)) == KindOf(c)
  {
    var rest := PrintInt(c.sender) + (" pays " + (PrintInt(c.receiver) + (" $" + PrintInt(c.amount))));
    StartsWithDigitOrMinus(c.sender, " pays " + (PrintInt(c.receiver) + (" $" + PrintInt(c.amount))));
    match c
    case Intra(_, _, _) => assert Print(c) == rest;
    case Prepare(_, _, _) => assert Print(c)[..9] == "[PREPARE]";
    case Commit(_, _, _) =>
      assert Print(c)[..8] == "[COMMIT]" && Print(c)[1] == 'C';
      assert Substr(Print(c), 9)[1] == 'C';
    case Abort(_, _, _) =>
      assert Print(c)[..7] == "[ABORT]" && Print(c)[1] == 'A';
      assert Substr(Print(c), 9)[1] == 'A' && Substr(Print(c), 8)[1] == 'A';
  }

  /** For all sender, receiver and amount values: printing an intra-shard or
      PREPARE command and reading it back yields the same command. */
  lemma CommandRoundTrip(c: Command)
    requires c.Holds()
    ensures Read(Print(c)) == Some(c)
  {
    hide PrintInt, Scan, Directives, TAIL, Quoted;
    var rest := PrintInt(c.sender) + (" pays " + (PrintInt(c.receiver) + (" $" + PrintInt(c.amount))));
    PrintedKind(c);
    FormatsAreTails();
    ScanTransfer(c.sender, c.receiver, c.amount);
    if c.Intra? {
      assert Print(c) == rest;
    } else {
      StartsWithDigitOrMinus(c.sender, " pays " + (PrintInt(c.receiver) + (" $" + PrintInt(c.amount))));
      LiteralsMatch("[PREPARE] ", rest, TAIL);
    }
  }

  /** The prefix tests on any text: by how it begins. */
  lemma ClassifyByPrefix(text: string)
    ensures Classify(text) == IntraKind <==> !("[" <= text)
    ensures Classify(text) == PrepareKind <==> "[PREPARE]" <= text
    ensures Classify(text) == CommitKind <==> "[COMMIT]" <= text
    ensures Classify(text) == AbortKind <==> "[ABORT]" <= text
  {
    assert "[COMMIT]"[1] != "[PREPARE]"[1] && "[ABORT]"[1] != "[PREPARE]"[1] && "[ABORT]"[1] != "[COMMIT]"[1];
    assert "[PREPARE]" <= text <==> Substr(text, 9) == "[PREPARE]";
    assert "[COMMIT]" <= text <==> Substr(text, 8) == "[COMMIT]";
    assert "[ABORT]" <= text <==> Substr(text, 7) == "[ABORT]";
  }

  /** The conversion also takes white space and a plus sign before the digits. */
  lemma ReadIntForms(n: nat, rest: string)
    requires rest == "" || !IsDigit(rest[0])
    ensures ReadInt("+" + (PrintNat(n) + rest)) == Some((n as int, rest))
    ensures ReadInt(" " + (PrintNat(n) + rest)) == Some((n as int, rest))
  {
    var s := PrintNat(n) + rest;
    NatDigits(n);
    ReadNatPrinted(n, rest);
    hide ReadNat, PrintNat;
    assert IsDigit(s[0]) && ("+" + s)[1..] == s && (" " + s)[1..] == s;
    assert SkipSpace(s) == s && SkipSpace("+" + s) == "+" + s && SkipSpace(" " + s) == s;
  }

  lemma PrintedNumbers()
    ensures PrintInt(5) == "5" && PrintInt(20) == "20" && PrintInt(1003) == "1003" && PrintInt(-5) == "-5"
  {
    assert PrintNat(2) == "2" && PrintNat(20) == "20";
    assert PrintNat(1) == "1" && PrintNat(10) == "10" && PrintNat(100) == "100" && PrintNat(1003) == "1003";
  }

  /** The texts themselves. */
  lemma PrintedText()
    ensures Print(Intra(5, 20, 5)) == "5 pays 20 $5"
    ensures Print(Prepare(5, 1003, 5)) == "[PREPARE] 5 pays 1003 $5"
    ensures Print(Commit(5, 1003, 5)) == "[COMMIT] 5 pays 1003 $5"
    ensures Print(Abort(5, 1003, -5)) == "[ABORT] 5 pays 1003 $-5"
  {
    PrintedNumbers();
    hide PrintInt;
  }
}
