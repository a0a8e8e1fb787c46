/**
 * From the text of regulars.txt, dirs.txt and symlinks.txt to the tables
 * (src/ota_metadata/legacy2/csv_parser.py, metadata.py): the lines that an image prints become the
 * rows and numbers of module FileTables.
 */
module ImageText {
  import opened Prelude
  import opened CsvLines
  import opened FileTables

  /** Every line parsed, in order; None where one does not match, which raises in the source. */
  function ReadAll<T>(parse: string -> Option<T>, lines: seq<string>): Option<seq<T>> {
    if lines == [] then Some([])
    else
      var front, last := ReadAll(parse, lines[..|lines| - 1]), parse(lines[|lines| - 1]);
      if front.None? || last.None? then None else Some(front.value + [last.value])
  }

  function Printed<T>(print_: T -> string, rows: seq<T>): seq<string> {
    seq(|rows|, i requires 0 <= i < |rows| => print_(rows[i]) + "\n")
  }

  lemma {:induction false} PrintedIsRead<T>(parse: string -> Option<T>, print_: T -> string, rows: seq<T>)
    requires forall i | 0 <= i < |rows| :: parse(print_(rows[i]) + "\n") == Some(rows[i])
    ensures ReadAll(parse, Printed(print_, rows)) == Some(rows)
  {
    if rows != [] {
      var n := |rows| - 1;
      PrintedIsRead(parse, print_, rows[..n]);
      assert Printed(print_, rows)[..n] == Printed(print_, rows[..n]);
      TakeOneMore(rows, n);
      assert rows[..n + 1] == rows;
    }
  }

  /** The loop over the lines of one file. */
  method ReadLines<T>(parse: string -> Option<T>, lines: seq<string>) returns (rows: Option<seq<T>>)
    ensures rows == ReadAll(parse, lines)
  {
    var done: seq<T> := [];
    assert lines[..0] == [];
    for i := 0 to |lines|
      invariant ReadAll(parse, lines[..i]) == Some(done)
    {
      assert lines[..i + 1][..i] == lines[..i];
      var row := parse(lines[i]);
      if row.None? {
        Unread(parse, lines, i + 1);
        return None;
      }
      done := done + [row.value];
    }
    assert lines[..|lines|] == lines;
    return Some(done);
  }

  lemma {:induction false} Unread<T>(parse: string -> Option<T>, lines: seq<string>, n: nat)
    requires n <= |lines| && ReadAll(parse, lines[..n]).None?
    ensures ReadAll(parse, lines).None?
    decreases |lines| - n
  {
    if n < |lines| {
      assert lines[..n + 1][..n] == lines[..n];
      Unread(parse, lines, n + 1);
    } else {
      assert lines[..n] == lines;
    }
  }

  predicate PrintableRegular(r: Regular) {
    && InOneLine(r.path) && r.path != "" && r.hash != "" && AllWord(r.hash)
    && (r.tail.Sized? ==> AllWord(r.tail.compression))
  }

  predicate PrintableSymlink(l: Symlink) { InOneLine(l.link) && InOneLine(l.target) && Tellable(l.link, l.target) }

  predicate Printable(regs: seq<Regular>, folders: seq<Directory>, links: seq<Symlink>) {
    && (forall i | 0 <= i < |regs| :: PrintableRegular(regs[i]))
    && (forall i | 0 <= i < |folders| :: InOneLine(folders[i].path))
    && (forall i | 0 <= i < |links| :: PrintableSymlink(links[i]))
  }

  lemma {:induction false} PrintedImageIsRead(regs: seq<Regular>, folders: seq<Directory>, links: seq<Symlink>)
    requires Printable(regs, folders, links)
    ensures ReadAll(ParseRegular, Printed(PrintRegular, regs)) == Some(regs)
    ensures ReadAll(ParseDirectory, Printed(PrintDirectory, folders)) == Some(folders)
    ensures ReadAll(ParseSymlink, Printed(PrintSymlink, links)) == Some(links)
  {
    forall i | 0 <= i < |regs| ensures ParseRegular(PrintRegular(regs[i]) + "\n") == Some(regs[i]) {
      RegularRoundTripIff(regs[i]);
    }
    forall i | 0 <= i < |folders| ensures ParseDirectory(PrintDirectory(folders[i]) + "\n") == Some(folders[i]) {
      DirectoryRoundTrip(folders[i]);
    }
    forall i | 0 <= i < |links| ensures ParseSymlink(PrintSymlink(links[i]) + "\n") == Some(links[i]) {
      SymlinkRoundTripIff(links[i]);
    }
    PrintedIsRead(ParseRegular, PrintRegular, regs);
    PrintedIsRead(ParseDirectory, PrintDirectory, folders);
    PrintedIsRead(ParseSymlink, PrintSymlink, links);
  }

  datatype Image = Image(regs: seq<Regular>, folders: seq<Directory>, links: seq<Symlink>)

  function ReadImage(regLines: seq<string>, dirLines: seq<string>, linkLines: seq<string>): Option<Image> {
    var regs, folders := ReadAll(ParseRegular, regLines), ReadAll(ParseDirectory, dirLines);
    var links := ReadAll(ParseSymlink, linkLines);
    if regs.None? || folders.None? || links.None? then None else Some(Image(regs.value, folders.value, links.value))
  }

  method ReadFiles(regLines: seq<string>, dirLines: seq<string>, linkLines: seq<string>) returns (image: Option<Image>)
    ensures image == ReadImage(regLines, dirLines, linkLines)
  {
    var regs := ReadLines(ParseRegular, regLines);
    var folders := ReadLines(ParseDirectory, dirLines);
    var links := ReadLines(ParseSymlink, linkLines);
    if regs.None? || folders.None? || links.None? {
      return None;
    }
    return Some(Image(regs.value, folders.value, links.value));
  }

  /** Text to tables, for whatever lines: they are the tables of what the lines say, if every line says something. */
  method ParseText(t: FileTable, regLines: seq<string>, dirLines: seq<string>, linkLines: seq<string>, batchSize: nat)
      returns (image: Option<Image>)
    requires batchSize > 0
    requires t.regulars == [] && t.dirs == [] && t.symlinks == [] && t.inodes == []
    modifies t
    ensures image == ReadImage(regLines, dirLines, linkLines)
    ensures image.Some? ==> t.Tabled(image.value.regs, image.value.folders, image.value.links)
  {
    image := ReadFiles(regLines, dirLines, linkLines);
    if image.Some? {
      t.ParseImage(image.value.regs, image.value.folders, image.value.links, batchSize);
    }
  }

  /** And for the lines that an image prints they are the tables of the image. */
  method PrintAndParse(t: FileTable, regs: seq<Regular>, folders: seq<Directory>, links: seq<Symlink>, batchSize: nat)
    requires batchSize > 0 && Printable(regs, folders, links)
    requires t.regulars == [] && t.dirs == [] && t.symlinks == [] && t.inodes == []
    modifies t
    ensures t.Tabled(regs, folders, links)
  {
    PrintedImageIsRead(regs, folders, links);
    var image := ParseText(
      t, Printed(PrintRegular, regs), Printed(PrintDirectory, folders), Printed(PrintSymlink, links), batchSize);
  }
}
