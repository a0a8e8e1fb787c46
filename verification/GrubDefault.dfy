/**
 * The update of /etc/default/grub (src/otaclient/boot_control/_grub_new.py, _update_grub_default):
 * the assignments of a file are gathered into a dictionary, the required options put over them, the
 * forbidden ones taken out, and the rest printed.
 */
module GrubDefault {
  import opened Prelude
  import opened Text
  import opened OrderedDict
  import ManagedConfig

  type Pair = (string, string)

  const HEADER_1 := ManagedConfig.HEADER_1
  const HEADER_2 := ManagedConfig.HEADER_2

  const TIMEOUT_STYLE := "GRUB_TIMEOUT_STYLE"
  const TIMEOUT := "GRUB_TIMEOUT"
  const DISABLE_SUBMENU := "GRUB_DISABLE_SUBMENU"
  const DISABLE_OS_PROBER := "GRUB_DISABLE_OS_PROBER"
  const DISABLE_RECOVERY := "GRUB_DISABLE_RECOVERY"
  const DEFAULT := "GRUB_DEFAULT"

  const REQUIRED: seq<Pair> := [
    (TIMEOUT_STYLE, "menu"), (TIMEOUT, "0"), (DISABLE_SUBMENU, "y"),
    (DISABLE_OS_PROBER, "true"), (DISABLE_RECOVERY, "true"), (DEFAULT, "saved")]

  const FORBIDDEN := "GRUB_SAVEDEFAULT"

  // ------ reading and printing ------ //

  /** What a line assigns: nothing if it is empty, a comment, or no assignment. */
  function Assignment(line: string): Option<Pair> {
    var text := Strip(line);
    if text == "" || text[0] == '#' || '=' !in text then None
    else Some((Strip(Before(text, '=')), Strip(After(text, '='))))
  }

  function Options(lines: seq<string>): seq<Pair> {
    if lines == [] then []
    else
      var front := Options(lines[..|lines| - 1]);
      match Assignment(lines[|lines| - 1])
      case None => front
      case Some((k, v)) => Put(front, k, v)
  }

  function Required(dict: seq<Pair>, required: seq<Pair>, forbidden: string): seq<Pair> {
    Drop(PutAll(dict, required), forbidden)
  }

  function PrintPair(p: Pair): string { p.0 + "=" + p.1 }

  function PrintAll(dict: seq<Pair>): string {
    if dict == [] then "" else (PrintPair(dict[0]) + "\n") + PrintAll(dict[1..])
  }

  function Print(first: string, second: string, dict: seq<Pair>): string {
    (first + "\n") + ((second + "\n") + PrintAll(dict))
  }

  function Updated(text: string): string {
    Print(HEADER_1, HEADER_2, Required(Options(SplitLines(text)), REQUIRED, FORBIDDEN))
  }

  // ------ what can be printed and read again ------ //

  predicate CleanPair(p: Pair) {
    Trimmed(p.0) && OneLine(p.0) && '=' !in p.0 && !("#" <= p.0) && Trimmed(p.1) && OneLine(p.1)
  }

  /** Clean pairs, no key twice. */
  predicate Clean(dict: seq<Pair>) {
    dict == [] || (CleanPair(dict[0]) && Lookup(dict[1..], dict[0].0).None? && Clean(dict[1..]))
  }

  lemma {:induction false} PutClean(dict: seq<Pair>, k: string, v: string)
    requires Clean(dict) && CleanPair((k, v))
    ensures Clean(Put(dict, k, v))
  {
    if dict != [] && dict[0].0 != k {
      PutClean(dict[1..], k, v);
      LookupPut(dict[1..], k, v, dict[0].0);
    }
  }

  lemma {:induction false} DropClean(dict: seq<Pair>, k: string)
    requires Clean(dict)
    ensures Clean(Drop(dict, k))
  {
    if dict != [] {
      DropClean(dict[1..], k);
      LookupDrop(dict[1..], k, dict[0].0);
    }
  }

  lemma {:induction false} CleanAt(dict: seq<Pair>, n: nat)
    requires Clean(dict) && n < |dict|
    ensures CleanPair(dict[n]) && Lookup(dict[..n], dict[n].0).None?
  {
    if n > 0 {
      CleanAt(dict[1..], n - 1);
      LookupNoneAt(dict[1..], dict[0].0, n - 1);
      assert dict[..n][1..] == dict[1..][..n - 1];
    }
  }

  lemma {:induction false} StripIsPart(s: string)
    ensures Trimmed(Strip(s)) && (OneLine(s) ==> OneLine(Strip(s)))
    ensures forall c | c !in s :: c !in Strip(s)
    ensures s != "" && !IsSpace(s[0]) ==> Strip(s) != "" && Strip(s)[0] == s[0]
  {
    var a, b := StripParts(s);
    assert forall i | 0 <= i < |Strip(s)| :: Strip(s)[i] == s[|a| + i];
    if s != "" && !IsSpace(s[0]) {
      assert LStrip(s) == s;
      var tail := RStripTail(s);
      assert Strip(s) == "" ==> s == tail;
    }
  }

  lemma {:induction false} AssignmentIsClean(line: string)
    requires OneLine(line) && Assignment(line).Some?
    ensures CleanPair(Assignment(line).value)
  {
    var text := Strip(line);
    StripIsPart(line);
    var key := Before(text, '=');
    StripIsPart(key);
    StripIsPart(After(text, '='));
    assert '=' !in key;
    if key != "" { assert key[0] == text[0]; }
  }

  /** A printed pair is read as itself. */
  lemma {:induction false} PairIsRead(p: Pair)
    requires CleanPair(p)
    ensures Assignment(PrintPair(p)) == Some(p) && OneLine(PrintPair(p))
  {
    var line := PrintPair(p);
    assert line == p.0 + ['='] + p.1;
    assert line[|p.0|] == '=';
    assert Trimmed(line) by {
      if p.0 != "" { assert line[0] == p.0[0]; }
      if p.1 != "" { assert line[|line| - 1] == p.1[|p.1| - 1]; }
    }
    StripTrimmed(line);
    SplitAt(p.0, '=', p.1);
    StripTrimmed(p.0);
    StripTrimmed(p.1);
  }

  lemma {:induction false} OptionsAreClean(lines: seq<string>)
    requires forall i | 0 <= i < |lines| :: OneLine(lines[i])
    ensures Clean(Options(lines))
  {
    if lines != [] {
      var line := lines[|lines| - 1];
      OptionsAreClean(lines[..|lines| - 1]);
      if Assignment(line).Some? {
        AssignmentIsClean(line);
        PutClean(Options(lines[..|lines| - 1]), Assignment(line).value.0, Assignment(line).value.1);
      }
    }
  }

  lemma {:induction false} OptionsAppend(lines: seq<string>, line: string)
    ensures Options(lines + [line]) ==
            match Assignment(line) case None => Options(lines) case Some((k, v)) => Put(Options(lines), k, v)
  {
    assert (lines + [line])[..|lines|] == lines;
  }

  function Lines(dict: seq<Pair>): seq<string> { seq(|dict|, i requires 0 <= i < |dict| => PrintPair(dict[i])) }

  lemma {:induction false} PrintedLines(dict: seq<Pair>)
    requires Clean(dict)
    ensures SplitLines(PrintAll(dict)) == Lines(dict)
  {
    if dict != [] {
      PairIsRead(dict[0]);
      SplitLine(PrintPair(dict[0]), PrintAll(dict[1..]));
      PrintedLines(dict[1..]);
      assert [PrintPair(dict[0])] + Lines(dict[1..]) == Lines(dict);
    }
  }

  predicate IsComment(line: string) { OneLine(line) && "#" <= line }

  lemma {:induction false} CommentAssignsNothing(line: string)
    requires IsComment(line)
    ensures Assignment(line).None?
  {
    StripIsPart(line);
  }

  lemma {:induction false} LinesAppend(before: seq<string>, dict: seq<Pair>, n: nat)
    requires n < |dict|
    ensures before + Lines(dict[..n + 1]) == (before + Lines(dict[..n])) + [PrintPair(dict[n])]
  {
    assert Lines(dict[..n + 1]) == Lines(dict[..n]) + [PrintPair(dict[n])];
  }

  lemma {:induction false} OneLineMore(lines: seq<string>, front: seq<Pair>, p: Pair)
    requires Options(lines) == front && CleanPair(p) && Lookup(front, p.0).None?
    ensures Options(lines + [PrintPair(p)]) == front + [p]
  {
    PairIsRead(p);
    OptionsAppend(lines, PrintPair(p));
    PutNew(front, p.0, p.1);
  }

  lemma {:induction false} LinesAreRead(before: seq<string>, dict: seq<Pair>, n: nat)
    requires Options(before) == [] && Clean(dict) && n <= |dict|
    ensures Options(before + Lines(dict[..n])) == dict[..n]
  {
    if n == 0 {
      assert before + Lines(dict[..0]) == before;
    } else {
      LinesAreRead(before, dict, n - 1);
      CleanAt(dict, n - 1);
      LinesAppend(before, dict, n - 1);
      OneLineMore(before + Lines(dict[..n - 1]), dict[..n - 1], dict[n - 1]);
      TakeOneMore(dict, n - 1);
    }
  }

  /** Reading a printed dictionary gives it back, in its order. */
  lemma {:induction false} PrintIsRead(first: string, second: string, dict: seq<Pair>)
    requires IsComment(first) && IsComment(second) && Clean(dict)
    ensures Options(SplitLines(Print(first, second, dict))) == dict
  {
    PrintedLines(dict);
    SplitLine(second, PrintAll(dict));
    SplitLine(first, (second + "\n") + PrintAll(dict));
    assert [first] + ([second] + Lines(dict)) == ([] + [first] + [second]) + Lines(dict);
    CommentAssignsNothing(first);
    CommentAssignsNothing(second);
    OptionsAppend([], first);
    OptionsAppend([] + [first], second);
    LinesAreRead([] + [first] + [second], dict, |dict|);
    assert dict[..|dict|] == dict;
  }

  // ------ the required options ------ //

  lemma {:induction false} PutAllClean(dict: seq<Pair>, more: seq<Pair>)
    requires Clean(dict) && forall i | 0 <= i < |more| :: CleanPair(more[i])
    ensures Clean(PutAll(dict, more))
    decreases |more|
  {
    if more != [] {
      PutClean(dict, more[0].0, more[0].1);
      PutAllClean(Put(dict, more[0].0, more[0].1), more[1..]);
    }
  }

  lemma {:induction false} CleanIsDistinct(dict: seq<Pair>)
    requires Clean(dict)
    ensures Distinct(dict)
  {
    if dict != [] { CleanIsDistinct(dict[1..]); }
  }

  lemma {:induction false} LookupClean(more: seq<Pair>, i: nat)
    requires Clean(more) && i < |more|
    ensures Lookup(more, more[i].0) == Some(more[i].1) && CleanPair(more[i])
  {
    if i > 0 {
      LookupClean(more[1..], i - 1);
      LookupNoneAt(more[1..], more[0].0, i - 1);
    }
  }

  /** What the required options make of a dictionary. */
  lemma {:induction false} RequiredAt(dict: seq<Pair>, required: seq<Pair>, forbidden: string, q: string)
    requires Clean(dict) && Clean(required)
    ensures Clean(Required(dict, required, forbidden))
    ensures Lookup(Required(dict, required, forbidden), q) ==
            if q == forbidden then None else if Lookup(required, q).Some? then Lookup(required, q) else Lookup(dict, q)
  {
    forall i | 0 <= i < |required| ensures CleanPair(required[i]) { LookupClean(required, i); }
    PutAllClean(dict, required);
    DropClean(PutAll(dict, required), forbidden);
    CleanIsDistinct(required);
    LookupPutAll(dict, required, q);
    LookupDrop(PutAll(dict, required), forbidden, q);
  }

  lemma {:induction false} RequiredTwice(dict: seq<Pair>, required: seq<Pair>, forbidden: string)
    requires Clean(dict) && Clean(required) && Lookup(required, forbidden).None?
    ensures var once := Required(dict, required, forbidden); Required(once, required, forbidden) == once
  {
    var once := Required(dict, required, forbidden);
    forall i | 0 <= i < |required| ensures Lookup(once, required[i].0) == Some(required[i].1) {
      LookupClean(required, i);
      LookupNoneAt(required, forbidden, i);
      RequiredAt(dict, required, forbidden, required[i].0);
    }
    PutAllSame(once, required);
    RequiredAt(dict, required, forbidden, forbidden);
    DropNone(once, forbidden);
  }

  // ------ the options and the header of this program ------ //

  predicate IsName(s: string) {
    s != "" && forall i | 0 <= i < |s| :: 'A' <= s[i] <= 'Z' || 'a' <= s[i] <= 'z' || s[i] == '_' || IsDigit(s[i])
  }

  lemma {:induction false} NamesAreClean(k: string, v: string)
    requires IsName(k) && IsName(v)
    ensures CleanPair((k, v))
  {}

  lemma {:induction false} FirstIsComment()
    ensures IsComment(HEADER_1)
  {
    assert OneLine("# OTAClient") && OneLine(" managed");
    assert OneLine(" configuration");
    assert OneLine(" file, DO") && OneLine(" NOT EDIT!");
  }

  lemma {:induction false} SecondIsComment()
    ensures IsComment(HEADER_2)
  {
    assert OneLine("# Manual") && OneLine(" edits to");
    assert OneLine(" this file") && OneLine(" will NOT be");
    assert OneLine(" preserved") && OneLine(" across OTA!");
  }

  lemma {:induction false} CleanFrom(required: seq<Pair>, n: nat)
    requires n <= |required| && forall i | 0 <= i < |required| :: CleanPair(required[i])
    requires forall i, j | 0 <= i < j < |required| :: required[i].0 != required[j].0
    ensures Clean(required[n..])
    decreases |required| - n
  {
    if n < |required| {
      CleanFrom(required, n + 1);
      NotAmong(required, required[n].0, n + 1);
      assert required[n..][1..] == required[n + 1..];
    }
  }

  lemma {:induction false} Names1() ensures IsName(TIMEOUT_STYLE) && IsName("menu") && |TIMEOUT_STYLE| == 18 {}

  lemma {:induction false} Names2() ensures IsName(TIMEOUT) && IsName("0") && |TIMEOUT| == 12 && TIMEOUT[5] == 'T' {}

  lemma {:induction false} Names3() ensures IsName(DISABLE_SUBMENU) && IsName("y") && |DISABLE_SUBMENU| == 20 {}

  lemma {:induction false} Names4() ensures IsName(DISABLE_OS_PROBER) && IsName("true") && |DISABLE_OS_PROBER| == 22 {}

  lemma {:induction false} Names5() ensures IsName(DISABLE_RECOVERY) && |DISABLE_RECOVERY| == 21 {}

  lemma {:induction false} Names6()
    ensures IsName(DEFAULT) && IsName("saved") && |DEFAULT| == 12 && DEFAULT[5] == 'D' && |FORBIDDEN| == 16
  {}

  /** The required options are told apart by their lengths, but for two of them. */
  predicate ToldApart(r: seq<Pair>, forbidden: string) {
    && |r| == 6 && |forbidden| == 16
    && |r[0].0| == 18 && |r[1].0| == 12 && |r[2].0| == 20 && |r[3].0| == 22 && |r[4].0| == 21 && |r[5].0| == 12
    && r[1].0[5] != r[5].0[5]
    && forall i | 0 <= i < 6 :: IsName(r[i].0) && IsName(r[i].1)
  }

  lemma {:induction false} ToldApartKeys(r: seq<Pair>, forbidden: string)
    requires ToldApart(r, forbidden)
    ensures forall i, j | 0 <= i < j < |r| :: r[i].0 != r[j].0
    ensures forall i | 0 <= i < |r| :: r[i].0 != forbidden
  {}

  lemma {:induction false} ToldApartIsClean(r: seq<Pair>, forbidden: string)
    requires ToldApart(r, forbidden)
    ensures Clean(r) && Lookup(r, forbidden).None?
  {
    ToldApartKeys(r, forbidden);
    forall i | 0 <= i < |r| ensures CleanPair(r[i]) {
      NamesAreClean(r[i].0, r[i].1);
    }
    CleanFrom(r, 0);
    NotAmong(r, forbidden, 0);
    assert r[0..] == r;
  }

  lemma {:induction false} RequiredIsClean()
    ensures Clean(REQUIRED) && Lookup(REQUIRED, FORBIDDEN).None?
  {
    Names1();
    Names2();
    Names3();
    Names4();
    Names5();
    Names6();
    ToldApartIsClean(REQUIRED, FORBIDDEN);
  }

  // ------ the update ------ //

  /** The loop over the lines of the file, and the dictionary printed. */
  method UpdateGrubDefault(text: string) returns (res: string)
    ensures res == Updated(text)
  {
    var lines, dict := SplitLines(text), [];
    assert lines[..0] == [];
    for i := 0 to |lines|
      invariant dict == Options(lines[..i])
    {
      assert lines[..i + 1][..i] == lines[..i];
      var line := Strip(lines[i]);
      if line == "" || line[0] == '#' {
        continue;
      }
      if '=' in line {
        dict := Put(dict, Strip(Before(line, '=')), Strip(After(line, '=')));
      }
    }
    assert lines[..|lines|] == lines;
    return Print(HEADER_1, HEADER_2, Required(dict, REQUIRED, FORBIDDEN));
  }

  /** What a reader of the file takes an option to be: its last assignment. */
  function LastAssignment(lines: seq<string>, k: string): Option<string> {
    if lines == [] then None
    else
      var last := Assignment(lines[|lines| - 1]);
      if last.Some? && last.value.0 == k then Some(last.value.1) else LastAssignment(lines[..|lines| - 1], k)
  }

  lemma {:induction false} OptionsAreLast(lines: seq<string>, k: string)
    ensures Lookup(Options(lines), k) == LastAssignment(lines, k)
  {
    if lines != [] {
      var front := lines[..|lines| - 1];
      OptionsAreLast(front, k);
      match Assignment(lines[|lines| - 1])
      case None =>
      case Some((key, v)) => LookupPut(Options(front), key, v, k);
    }
  }

  lemma {:induction false} UpdatedIsRead(text: string)
    ensures Options(SplitLines(Updated(text))) == Required(Options(SplitLines(text)), REQUIRED, FORBIDDEN)
    ensures Clean(Options(SplitLines(text))) && Clean(REQUIRED) && Lookup(REQUIRED, FORBIDDEN).None?
  {
    var dict := Options(SplitLines(text));
    LinesAreOneLine(text);
    OptionsAreClean(SplitLines(text));
    RequiredIsClean();
    RequiredAt(dict, REQUIRED, FORBIDDEN, FORBIDDEN);
    FirstIsComment();
    SecondIsComment();
    PrintIsRead(HEADER_1, HEADER_2, Required(dict, REQUIRED, FORBIDDEN));
  }

  /**
   * Reading the updated file gives the required options, none that is forbidden, and else the last
   * assignment of the old one.
   */
  lemma {:induction false} UpdateOverrides(text: string, k: string)
    ensures LastAssignment(SplitLines(Updated(text)), k) ==
            if k == FORBIDDEN then None
            else if Lookup(REQUIRED, k).Some? then Lookup(REQUIRED, k)
            else LastAssignment(SplitLines(text), k)
  {
    UpdatedIsRead(text);
    OptionsAreLast(SplitLines(Updated(text)), k);
    OptionsAreLast(SplitLines(text), k);
    RequiredAt(Options(SplitLines(text)), REQUIRED, FORBIDDEN, k);
  }

  /** Updating an updated file changes nothing, on every input. */
  lemma {:induction false} UpdateIsIdempotent(text: string)
    ensures Updated(Updated(text)) == Updated(text)
  {
    UpdatedIsRead(text);
    RequiredTwice(Options(SplitLines(text)), REQUIRED, FORBIDDEN);
  }
}
