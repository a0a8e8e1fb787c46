/**
 * The lines of regulars.txt, dirs.txt and symlinks.txt (src/ota_metadata/legacy2/csv_parser.py): how
 * an image prints them, and what the patterns find in them.
 */
module CsvLines {
  import opened Prelude
  import opened Text

  const QUOTED := "'\\''"

  /** A quote inside a quoted path, as a shell wants it. */
  function Escape(s: string): string {
    if s == "" then "" else Escaped(s[0]) + Escape(s[1..])
  }

  function Escaped(c: char): string { if c == '\'' then QUOTED else [c] }

  /** str.replace, from the left. */
  function DeEscape(s: string): string {
    if s == "" then ""
    else if QUOTED <= s then "'" + DeEscape(s[4..])
    else [s[0]] + DeEscape(s[1..])
  }

  lemma {:induction false} DeEscapeHead(c: char, tail: string)
    ensures DeEscape(Escaped(c) + tail) == [c] + DeEscape(tail)
  {
    var s := Escaped(c) + tail;
    if c == '\'' {
      assert s[4..] == tail;
    } else {
      assert s[0] == c && QUOTED[0] == '\'';
      assert s[1..] == tail;
    }
  }

  lemma {:induction false} DeEscapeFrom(s: string, rest: string)
    ensures DeEscape(Escape(s) + rest) == s + DeEscape(rest)
  {
    if s == "" {
      assert Escape(s) + rest == rest;
    } else {
      var tail := Escape(s[1..]) + rest;
      calc {
        DeEscape(Escape(s) + rest);
        { assert Escape(s) + rest == Escaped(s[0]) + tail; }
        DeEscape(Escaped(s[0]) + tail);
        { DeEscapeHead(s[0], tail); }
        [s[0]] + DeEscape(tail);
        { DeEscapeFrom(s[1..], rest); }
        [s[0]] + (s[1..] + DeEscape(rest));
        { assert s == [s[0]] + s[1..]; }
        s + DeEscape(rest);
      }
    }
  }

  /** Escaping is undone. */
  lemma {:induction false} EscapeRoundTrip(s: string)
    ensures DeEscape(Escape(s)) == s
  {
    DeEscapeFrom(s, "");
    assert Escape(s) + "" == Escape(s);
  }

  /** In an escaped path a quote before a comma stands behind another quote. */
  lemma {:induction false} QuoteBeforeComma(s: string, i: nat)
    requires i + 1 < |Escape(s)| && Escape(s)[i] == '\'' && Escape(s)[i + 1] == ','
    ensures i > 0 && Escape(s)[i - 1] == '\''
  {
    var head := Escaped(s[0]);
    var rest := Escape(s[1..]);
    assert Escape(s) == head + rest;
    if i >= |head| {
      QuoteBeforeComma(s[1..], i - |head|);
    }
  }

  lemma {:induction false} EscapeEnds(s: string)
    requires s != ""
    ensures Escape(s) != "" && Escape(s)[0] == s[0]
    ensures Escape(s)[|Escape(s)| - 1] == '\'' <==> s[|s| - 1] == '\''
  {
    if |s| == 1 {
      assert Escape(s[1..]) == "";
    } else {
      EscapeEnds(s[1..]);
      assert s[1..][|s| - 2] == s[|s| - 1];
    }
  }

  // ------ the separator of a symlink line ------ //

  function LastQuote(s: string): (q: Option<nat>)
    ensures q.Some? ==> q.value < |s| && s[q.value] == '\'' && forall i | q.value < i < |s| :: s[i] != '\''
    ensures q.None? ==> '\'' !in s
  {
    if s == "" then None
    else if s[|s| - 1] == '\'' then Some(|s| - 1)
    else LastQuote(s[..|s| - 1])
  }

  /** `','` at p, not behind a quote, with a link before it and a target and a quote after it. */
  predicate IsSeparator(s: string, p: nat) {
    && 0 < p && p + 3 <= |s| && s[p] == '\'' && s[p + 1] == ',' && s[p + 2] == '\'' && s[p - 1] != '\''
    && LastQuote(s).Some? && LastQuote(s).value > p + 3
  }

  /** The greedy pattern takes the last one. */
  function FindSeparator(s: string, n: nat): (p: Option<nat>)
    ensures p.Some? ==> p.value <= n && IsSeparator(s, p.value) && forall i | p.value < i <= n :: !IsSeparator(s, i)
    ensures p.None? ==> forall i | 0 <= i <= n :: !IsSeparator(s, i)
  {
    if IsSeparator(s, n) then Some(n) else if n == 0 then None else FindSeparator(s, n - 1)
  }

  /** What the pattern finds behind the first quote of a line: the link and the target. */
  function ParsePair(s: string): Option<(string, string)> {
    match FindSeparator(s, |s|)
    case None => None
    case Some(p) => Some((DeEscape(s[..p]), DeEscape(s[p + 3..LastQuote(s).value])))
  }

  function PrintPair(link: string, target: string): string { Escape(link) + "','" + Escape(target) + "'" }

  /** When the pair can be told apart again. */
  predicate Tellable(link: string, target: string) {
    && link != "" && link[|link| - 1] != '\''
    && target != "" && !(",'" <= target)
  }

  lemma {:induction false} CommaQuote(target: string)
    ensures ",'" <= target <==> |Escape(target)| >= 2 && Escape(target)[0] == ',' && Escape(target)[1] == '\''
    ensures ",'" <= target ==> |Escape(target)| >= 5
  {
    if |target| >= 2 {
      EscapeEnds(target[1..]);
      assert target[0] != '\'' ==> Escape(target) == [target[0]] + Escape(target[1..]);
      assert ",'" <= target <==> target[0] == ',' && target[1] == '\'';
      if ",'" <= target {
        assert Escape(target[1..]) == QUOTED + Escape(target[2..]) by { assert target[1..][1..] == target[2..]; }
      }
    } else if |target| == 1 {
      assert Escape(target[1..]) == "";
    }
  }

  lemma {:induction false} PairLastQuote(link: string, target: string)
    ensures LastQuote(PrintPair(link, target)) == Some(|PrintPair(link, target)| - 1)
  {
    var s := PrintPair(link, target);
    assert s[|s| - 1] == '\'';
  }

  /** No separator inside the link. */
  lemma {:induction false} NoneInLink(link: string, target: string, p: nat)
    requires p < |Escape(link)|
    ensures !IsSeparator(PrintPair(link, target), p)
  {
    var e, s := Escape(link), PrintPair(link, target);
    assert forall i | 0 <= i < |e| :: s[i] == e[i];
    assert s[|e|] == '\'';
    if p + 1 < |e| && e[p] == '\'' && e[p + 1] == ',' {
      QuoteBeforeComma(link, p);
    }
  }

  /** None inside the target either. */
  lemma {:induction false} NoneInTarget(link: string, target: string, p: nat)
    requires p >= |Escape(link)| + 3
    ensures !IsSeparator(PrintPair(link, target), p)
  {
    var e, s, m := Escape(target), PrintPair(link, target), |Escape(link)| + 3;
    assert forall i | 0 <= i < |e| :: s[m + i] == e[i];
    assert |s| == m + |e| + 1 && s[m + |e|] == '\'';
    var i := p - m;
    if i + 1 < |e| && e[i] == '\'' && e[i + 1] == ',' {
      QuoteBeforeComma(target, i);
      assert s[p - 1] == e[i - 1];
    }
  }

  /** At the true place exactly where the link and the target allow it. */
  lemma {:induction false} AtThePlace(link: string, target: string)
    ensures IsSeparator(PrintPair(link, target), |Escape(link)|) <==>
        link != "" && link[|link| - 1] != '\'' && target != ""
  {
    var s, p := PrintPair(link, target), |Escape(link)|;
    PairLastQuote(link, target);
    assert s[p] == '\'' && s[p + 1] == ',' && s[p + 2] == '\'';
    if link != "" {
      EscapeEnds(link);
      assert s[p - 1] == Escape(link)[p - 1];
    }
    if target != "" { EscapeEnds(target); }
  }

  /** And at the opening quote of the target only for a target that begins with `,'`. */
  lemma {:induction false} AtTheQuote(link: string, target: string)
    ensures IsSeparator(PrintPair(link, target), |Escape(link)| + 2) <==> ",'" <= target
    ensures !IsSeparator(PrintPair(link, target), |Escape(link)| + 1)
  {
    var e, s, m := Escape(target), PrintPair(link, target), |Escape(link)| + 3;
    PairLastQuote(link, target);
    CommaQuote(target);
    assert forall i | 0 <= i < |e| :: s[m + i] == e[i];
    assert |s| == m + |e| + 1 && s[m - 1] == '\'' && s[m - 2] == ',' && s[m + |e|] == '\'';
  }

  /** The pattern finds the one true separator if and only if the pair is tellable. */
  lemma {:induction false} TrueSeparatorIff(link: string, target: string)
    ensures FindSeparator(PrintPair(link, target), |PrintPair(link, target)|) == Some(|Escape(link)|) <==>
        Tellable(link, target)
    ensures var p := FindSeparator(PrintPair(link, target), |PrintPair(link, target)|);
            p.Some? ==> p.value >= |Escape(link)|
  {
    var s, p := PrintPair(link, target), |Escape(link)|;
    AtThePlace(link, target);
    AtTheQuote(link, target);
    forall i: nat | i < p ensures !IsSeparator(s, i) { NoneInLink(link, target, i); }
    forall i: nat | i >= p + 3 ensures !IsSeparator(s, i) { NoneInTarget(link, target, i); }
    assert p + 2 <= |s|;
  }

  /** Parsing gives back the printed pair if and only if it is tellable. */
  lemma {:induction false} PairRoundTripIff(link: string, target: string)
    ensures ParsePair(PrintPair(link, target)) == Some((link, target)) <==> Tellable(link, target)
  {
    var s, p := PrintPair(link, target), |Escape(link)|;
    var found := FindSeparator(s, |s|);
    TrueSeparatorIff(link, target);
    PairLastQuote(link, target);
    assert s[..p] == Escape(link);
    assert s[p + 3..|s| - 1] == Escape(target);
    if Tellable(link, target) {
      EscapeRoundTrip(link);
      EscapeRoundTrip(target);
    } else if found.Some? {
      var q := found.value;
      assert s[..q] == Escape(link) + s[p..q];
      DeEscapeFrom(link, s[p..q]);
      DeEscapeNotEmpty(s[p..q]);
      assert |DeEscape(s[..q])| > |link|;
    }
  }

  lemma {:induction false} DeEscapeNotEmpty(s: string)
    requires s != ""
    ensures DeEscape(s) != ""
  {}

  // ------ fields ------ //

  /** `\d+,` at the start of a text: the digits, and what follows the comma. */
  function TakeNumber(s: string): Option<(string, string)> {
    var n := Digits(s);
    if n == 0 || n == |s| || s[n] != ',' then None else Some((s[..n], s[n + 1..]))
  }

  function Digits(s: string): (n: nat)
    ensures n <= |s| && AllDigits(s[..n]) && (n < |s| ==> !IsDigit(s[n]))
  {
    if s == "" || !IsDigit(s[0]) then 0 else 1 + Digits(s[1..])
  }

  /** A word character; letters beyond ASCII do not occur in the fields printed. */
  predicate IsWord(c: char) { IsDigit(c) || 'a' <= c <= 'z' || 'A' <= c <= 'Z' || c == '_' }

  predicate AllWord(s: string) { forall i | 0 <= i < |s| :: IsWord(s[i]) }

  function Words(s: string): (n: nat)
    ensures n <= |s| && AllWord(s[..n]) && (n < |s| ==> !IsWord(s[n]))
  {
    if s == "" || !IsWord(s[0]) then 0 else 1 + Words(s[1..])
  }

  lemma {:induction false} DigitsOf(d: string, rest: string)
    requires AllDigits(d) && (rest != "" ==> !IsDigit(rest[0]))
    ensures Digits(d + rest) == |d|
  {
    if d == "" {
      assert d + rest == rest;
    } else {
      assert (d + rest)[1..] == d[1..] + rest;
      DigitsOf(d[1..], rest);
    }
  }

  lemma {:induction false} WordsOf(d: string, rest: string)
    requires AllWord(d) && (rest != "" ==> !IsWord(rest[0]))
    ensures Words(d + rest) == |d|
  {
    if d == "" {
      assert d + rest == rest;
    } else {
      assert (d + rest)[1..] == d[1..] + rest;
      WordsOf(d[1..], rest);
    }
  }

  lemma {:induction false} TakeNumberOf(d: string, rest: string)
    requires d != "" && AllDigits(d)
    ensures TakeNumber(d + "," + rest) == Some((d, rest))
  {
    assert d + "," + rest == d + ("," + rest);
    DigitsOf(d, "," + rest);
  }

  predicate AllOctal(s: string) { forall i | 0 <= i < |s| :: '0' <= s[i] <= '7' }

  /** int(s, 8) of digits. */
  function OctValue(s: string): nat
    requires AllOctal(s)
  {
    if s == "" then 0 else 8 * OctValue(s[..|s| - 1]) + (s[|s| - 1] as int - '0' as int)
  }

  function Oct(n: nat): (s: string)
    ensures s != "" && AllOctal(s)
  {
    var last := [('0' as int + n % 8) as char];
    if n < 8 then last else Oct(n / 8) + last
  }

  lemma {:induction false} OctRoundTrip(n: nat)
    ensures OctValue(Oct(n)) == n
  {
    var s := Oct(n);
    if n < 8 {
      assert s[..0] == "";
      assert OctValue(s) == 8 * OctValue("") + n;
    } else {
      OctRoundTrip(n / 8);
      assert s[..|s| - 1] == Oct(n / 8);
    }
  }

  /** The permission bits, owner and group that every line begins with. */
  datatype Owner = Owner(mode: nat, uid: nat, gid: nat)

  function PrintOwner(o: Owner): string { Oct(o.mode) + "," + Dec(o.uid) + "," + Dec(o.gid) + "," }

  function ParseOwner(line: string): Option<(Owner, string)> {
    match TakeNumber(line)
    case None => None
    case Some((mode, afterMode)) =>
      match TakeNumber(afterMode)
      case None => None
      case Some((uid, afterUid)) =>
        match TakeNumber(afterUid)
        case None => None
        case Some((gid, rest)) =>
          if AllOctal(mode) && AllDigits(uid) && AllDigits(gid)
          then Some((Owner(OctValue(mode), Value(uid), Value(gid)), rest))
          else None
  }

  lemma {:induction false} OwnerRoundTrip(o: Owner, rest: string)
    ensures ParseOwner(PrintOwner(o) + rest) == Some((o, rest))
  {
    var afterUid := Dec(o.gid) + "," + rest;
    var afterMode := Dec(o.uid) + "," + afterUid;
    assert PrintOwner(o) + rest == Oct(o.mode) + "," + afterMode;
    assert AllDigits(Oct(o.mode));
    TakeNumberOf(Oct(o.mode), afterMode);
    TakeNumberOf(Dec(o.uid), afterUid);
    TakeNumberOf(Dec(o.gid), rest);
    OctRoundTrip(o.mode);
    DecRoundTrip(o.uid);
    DecRoundTrip(o.gid);
  }

  // ------ whole lines ------ //

  datatype Symlink = Symlink(owner: Owner, link: string, target: string)

  function PrintSymlink(l: Symlink): string { PrintOwner(l.owner) + "'" + PrintPair(l.link, l.target) }

  function ParseSymlink(line: string): Option<Symlink> {
    match ParseOwner(Strip(line))
    case None => None
    case Some((owner, rest)) =>
      if rest == "" || rest[0] != '\'' then None
      else
        match ParsePair(rest[1..])
        case None => None
        case Some((link, target)) => Some(Symlink(owner, link, target))
  }

  /** Lines end in a newline, which is stripped. */
  lemma {:induction false} LineIsStripped(o: Owner, rest: string)
    requires rest != "" && !IsSpace(rest[|rest| - 1])
    ensures Strip(PrintOwner(o) + rest + "\n") == PrintOwner(o) + rest
  {
    var s := PrintOwner(o) + rest;
    assert s[0] == Oct(o.mode)[0] && s[|s| - 1] == rest[|rest| - 1];
    StripOf("", s, "\n");
    assert "" + s + "\n" == s + "\n";
  }

  /** A line of a text file holds no line break; others than these two do not end it. */
  predicate InOneLine(s: string) { '\n' !in s && '\r' !in s }

  /** A symlink line is read back if and only if its link and target are tellable. */
  lemma {:induction false} SymlinkRoundTripIff(l: Symlink)
    requires InOneLine(l.link) && InOneLine(l.target)
    ensures ParseSymlink(PrintSymlink(l) + "\n") == Some(l) <==> Tellable(l.link, l.target)
  {
    var rest := "'" + PrintPair(l.link, l.target);
    assert PrintSymlink(l) == PrintOwner(l.owner) + rest;
    LineIsStripped(l.owner, rest);
    OwnerRoundTrip(l.owner, rest);
    assert rest[1..] == PrintPair(l.link, l.target);
    PairRoundTripIff(l.link, l.target);
  }

  datatype Directory = Directory(owner: Owner, path: string)

  function PrintDirectory(d: Directory): string { PrintOwner(d.owner) + "'" + Escape(d.path) + "'" }

  function ParseDirectory(line: string): Option<Directory> {
    match ParseOwner(Strip(line))
    case None => None
    case Some((owner, rest)) => Some(Directory(owner, DeEscape(if |rest| >= 2 then rest[1..|rest| - 1] else "")))
  }

  lemma {:induction false} DirectoryRoundTrip(d: Directory)
    requires InOneLine(d.path)
    ensures ParseDirectory(PrintDirectory(d) + "\n") == Some(d)
  {
    var rest := "'" + Escape(d.path) + "'";
    assert PrintDirectory(d) == PrintOwner(d.owner) + rest;
    LineIsStripped(d.owner, rest);
    OwnerRoundTrip(d.owner, rest);
    assert rest[1..|rest| - 1] == Escape(d.path);
    EscapeRoundTrip(d.path);
  }

  /** What follows the path; the inode and the algorithm count only where there is a size. */
  datatype Tail = NoSize | Sized(size: nat, inode: Option<nat>, compression: string)

  datatype Regular = Regular(owner: Owner, nlink: nat, hash: string, path: string, tail: Tail)

  /** `(,(\d+)?(,(\d+)?(,(\w+)?)?)?)?` from the closing quote on. */
  function ParseTail(s: string): Tail {
    if s == "" || s[0] != ',' then NoSize
    else
      var n := Digits(s[1..]);
      if n == 0 then NoSize
      else
        var (inode, compression) := ParseInode(s[1 + n..]);
        Sized(Value(s[1..][..n]), inode, compression)
  }

  function ParseInode(s: string): (Option<nat>, string) {
    if s == "" || s[0] != ',' then (None, "")
    else
      var n := Digits(s[1..]);
      (if n == 0 then None else Some(Value(s[1..][..n])), ParseCompression(s[1 + n..]))
  }

  function ParseCompression(s: string): string {
    if s == "" || s[0] != ',' then "" else s[1..][..Words(s[1..])]
  }

  function PrintInode(inode: Option<nat>): string { if inode.Some? then Dec(inode.value) else "" }

  function PrintCompression(compression: string): string { if compression == "" then "" else "," + compression }

  function PrintTail(t: Tail): string {
    match t
    case NoSize => ""
    case Sized(size, inode, compression) => "," + Dec(size) + "," + PrintInode(inode) + PrintCompression(compression)
  }

  lemma {:induction false} CompressionRoundTrip(compression: string)
    requires AllWord(compression)
    ensures ParseCompression(PrintCompression(compression)) == compression
  {
    if compression != "" {
      assert PrintCompression(compression)[1..] == compression + "";
      WordsOf(compression, "");
    }
  }

  lemma {:induction false} InodeRoundTrip(inode: Option<nat>, last: string)
    requires last != "" ==> last[0] == ','
    ensures ParseInode("," + PrintInode(inode) + last) == (inode, ParseCompression(last))
  {
    var d, s := PrintInode(inode), "," + PrintInode(inode) + last;
    assert s[1..] == d + last;
    DigitsOf(d, last);
    assert s[1 + |d|..] == last;
    assert (d + last)[..|d|] == d;
    if inode.Some? { DecRoundTrip(inode.value); }
  }

  lemma {:induction false} TailRoundTrip(t: Tail)
    requires t.Sized? ==> AllWord(t.compression)
    ensures ParseTail(PrintTail(t)) == t
  {
    if t.Sized? {
      var d, last := Dec(t.size), PrintCompression(t.compression);
      var rest := "," + PrintInode(t.inode) + last;
      var s := PrintTail(t);
      assert s == "," + (d + rest);
      assert s[1..] == d + rest;
      DigitsOf(d, rest);
      assert s[1 + |d|..] == rest && (d + rest)[..|d|] == d;
      DecRoundTrip(t.size);
      InodeRoundTrip(t.inode, last);
      CompressionRoundTrip(t.compression);
    }
  }

  function PrintRegular(r: Regular): string {
    PrintOwner(r.owner) + (Dec(r.nlink) + "," + (r.hash + ",'" + (Escape(r.path) + "'" + PrintTail(r.tail))))
  }

  /** Behind the opening quote: `(.+)'` and the tail. */
  function ParseQuoted(s: string): Option<(string, Tail)> {
    match LastQuote(s)
    case None => None
    case Some(q) => if q == 0 then None else Some((DeEscape(s[..q]), ParseTail(s[q + 1..])))
  }

  /** From the hash on: `(\w+),'` and the path. */
  function ParsePath(s: string): Option<(string, string, Tail)> {
    var n := Words(s);
    if n == 0 || n + 2 > |s| || s[n] != ',' || s[n + 1] != '\'' then None
    else
      match ParseQuoted(s[n + 2..])
      case None => None
      case Some((path, tail)) => Some((s[..n], path, tail))
  }

  function ParseRegular(line: string): Option<Regular> {
    match ParseOwner(Strip(line))
    case None => None
    case Some((owner, s1)) =>
      match TakeNumber(s1)
      case None => None
      case Some((nlink, s2)) =>
        match ParsePath(s2)
        case None => None
        case Some((hash, path, tail)) =>
          if AllDigits(nlink) then Some(Regular(owner, Value(nlink), hash, path, tail)) else None
  }

  lemma {:induction false} TailHasNoQuote(t: Tail)
    requires t.Sized? ==> AllWord(t.compression)
    ensures '\'' !in PrintTail(t)
    ensures PrintTail(t) != "" ==> !IsSpace(PrintTail(t)[|PrintTail(t)| - 1])
  {}

  lemma {:induction false} LastQuoteOf(a: string, b: string)
    requires '\'' !in b
    ensures LastQuote(a + "'" + b) == Some(|a|)
  {
    var s := a + "'" + b;
    assert s[|a|] == '\'';
    assert forall i | |a| < i < |s| :: s[i] == b[i - |a| - 1];
  }

  lemma {:induction false} QuotedRoundTrip(path: string, tail: Tail)
    requires path != "" && (tail.Sized? ==> AllWord(tail.compression))
    ensures ParseQuoted(Escape(path) + "'" + PrintTail(tail)) == Some((path, tail))
  {
    var s, n := Escape(path) + "'" + PrintTail(tail), |Escape(path)|;
    TailHasNoQuote(tail);
    LastQuoteOf(Escape(path), PrintTail(tail));
    EscapeEnds(path);
    assert s[..n] == Escape(path) && s[n + 1..] == PrintTail(tail);
    EscapeRoundTrip(path);
    TailRoundTrip(tail);
  }

  lemma {:induction false} PathRoundTrip(hash: string, path: string, tail: Tail)
    requires path != "" && hash != "" && AllWord(hash) && (tail.Sized? ==> AllWord(tail.compression))
    ensures ParsePath(hash + ",'" + (Escape(path) + "'" + PrintTail(tail))) == Some((hash, path, tail))
  {
    var quoted := Escape(path) + "'" + PrintTail(tail);
    QuotedRoundTrip(path, tail);
    HashSplit(hash, quoted);
  }

  lemma {:induction false} HashSplit(hash: string, quoted: string)
    requires hash != "" && AllWord(hash)
    ensures var s := hash + ",'" + quoted; var n := Words(s);
            n == |hash| && s[..n] == hash && s[n] == ',' && s[n + 1] == '\'' && s[n + 2..] == quoted
  {
    var s := hash + ",'" + quoted;
    assert s == hash + (",'" + quoted);
    WordsOf(hash, ",'" + quoted);
  }

  lemma {:induction false} QuotedEnds(path: string, tail: Tail)
    requires tail.Sized? ==> AllWord(tail.compression)
    ensures var quoted := Escape(path) + "'" + PrintTail(tail); !IsSpace(quoted[|quoted| - 1])
  {
    TailHasNoQuote(tail);
  }

  lemma {:induction false} LastOf(a: string, b: string)
    requires b != ""
    ensures (a + b)[|a + b| - 1] == b[|b| - 1]
  {}

  lemma {:induction false} RegularIsStripped(r: Regular)
    requires r.tail.Sized? ==> AllWord(r.tail.compression)
    ensures var rest := Dec(r.nlink) + "," + (r.hash + ",'" + (Escape(r.path) + "'" + PrintTail(r.tail)));
            Strip(PrintRegular(r) + "\n") == PrintOwner(r.owner) + rest
  {
    var quoted := Escape(r.path) + "'" + PrintTail(r.tail);
    QuotedEnds(r.path, r.tail);
    LastOf(r.hash + ",'", quoted);
    LastOf(Dec(r.nlink) + ",", r.hash + ",'" + quoted);
    LineIsStripped(r.owner, Dec(r.nlink) + "," + (r.hash + ",'" + quoted));
  }

  /** An empty path leaves the pattern nothing to match. */
  lemma {:induction false} EmptyPathIsRefused(hash: string, tail: Tail)
    requires hash != "" && AllWord(hash) && (tail.Sized? ==> AllWord(tail.compression))
    ensures ParsePath(hash + ",'" + (Escape("") + "'" + PrintTail(tail))) == None
  {
    TailHasNoQuote(tail);
    LastQuoteOf(Escape(""), PrintTail(tail));
    HashSplit(hash, Escape("") + "'" + PrintTail(tail));
  }

  /** A regular line is read back if and only if it has a path, whatever that is. */
  lemma {:induction false} RegularRoundTripIff(r: Regular)
    requires InOneLine(r.path) && r.hash != "" && AllWord(r.hash)
    requires r.tail.Sized? ==> AllWord(r.tail.compression)
    ensures ParseRegular(PrintRegular(r) + "\n") == Some(r) <==> r.path != ""
  {
    var s2 := r.hash + ",'" + (Escape(r.path) + "'" + PrintTail(r.tail));
    RegularIsStripped(r);
    OwnerRoundTrip(r.owner, Dec(r.nlink) + "," + s2);
    TakeNumberOf(Dec(r.nlink), s2);
    DecRoundTrip(r.nlink);
    if r.path == "" {
      EmptyPathIsRefused(r.hash, r.tail);
    } else {
      PathRoundTrip(r.hash, r.path, r.tail);
    }
  }
}
