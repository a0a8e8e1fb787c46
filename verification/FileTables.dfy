/**
 * The file tables built from regulars.txt, dirs.txt and symlinks.txt (src/ota_metadata/legacy2/csv_parser.py):
 * rows inserted in batches, resources and inodes numbered on the way.
 */
module FileTables {
  import opened Prelude
  import opened CsvLines
  import opened Text

  datatype Kind = RegularKind | DirectoryKind | SymlinkKind

  datatype InodeRow = InodeRow(id: int, kind: Kind, owner: Owner, links: Option<nat>)

  datatype RegularRow = RegularRow(path: string, inodeId: int, resourceId: nat)

  datatype DirRow = DirRow(path: string, inodeId: int)

  datatype SymlinkRow = SymlinkRow(path: string, target: string, inodeId: int)

  /** A resource is told by its digest, in whatever case its hex is written, and its size. */
  datatype Resource = Resource(digest: string, size: nat)

  function ResourceOf(r: Regular): Resource {
    Resource(Lower(r.hash), if r.tail.Sized? then r.tail.size else 0)
  }

  datatype ResourceRow = ResourceRow(id: nat, resource: Resource)

  /** An inode number given, and not zero, marks a hardlink. */
  predicate IsHardlink(r: Regular) { r.tail.Sized? && r.tail.inode.Some? && r.tail.inode.value != 0 }

  function HardlinkId(r: Regular): int
    requires IsHardlink(r)
  {
    0 - r.tail.inode.value as int
  }

  // ------ what the tables should hold ------ //

  /** The resources in the order they are first seen. */
  function FirstSeen(rows: seq<Regular>): seq<Resource> {
    if rows == [] then []
    else
      var before, it := FirstSeen(rows[..|rows| - 1]), ResourceOf(rows[|rows| - 1]);
      if it in before then before else before + [it]
  }

  /** How many rows get an inode number of their own. */
  function Plain(rows: seq<Regular>): nat {
    if rows == [] then 0 else Plain(rows[..|rows| - 1]) + if IsHardlink(rows[|rows| - 1]) then 0 else 1
  }

  function Links(rows: seq<Regular>, id: int): nat {
    if rows == [] then 0
    else
      var last := rows[|rows| - 1];
      Links(rows[..|rows| - 1], id) + if IsHardlink(last) && HardlinkId(last) == id then 1 else 0
  }

  function InodeIdOf(rows: seq<Regular>, i: nat, start: int): int
    requires i < |rows|
  {
    if IsHardlink(rows[i]) then HardlinkId(rows[i]) else start + Plain(rows[..i])
  }

  /** Row i of the table says what row i of the file says, with its inode and the place of its resource. */
  ghost predicate RegularOk(rows: seq<Regular>, resources: seq<Resource>, start: int, i: nat, row: RegularRow)
    requires i < |rows|
  {
    && row.path == rows[i].path && row.inodeId == InodeIdOf(rows, i, start)
    && row.resourceId < |resources| && resources[row.resourceId] == ResourceOf(rows[i])
  }

  ghost predicate RegularsOk(rows: seq<Regular>, resources: seq<Resource>, start: int, table: seq<RegularRow>) {
    |table| == |rows| && forall i | 0 <= i < |rows| :: RegularOk(rows, resources, start, i, table[i])
  }

  /** The inodes of the rows that are no hardlinks, numbered one after the other. */
  function PlainInodes(rows: seq<Regular>, start: int): seq<InodeRow> {
    if rows == [] then []
    else
      var n := |rows| - 1;
      PlainInodes(rows[..n], start)
      + if IsHardlink(rows[n]) then [] else [InodeRow(start + Plain(rows[..n]), RegularKind, rows[n].owner, None)]
  }

  /** The hardlinked inodes in the order they are first seen. */
  function HardIds(rows: seq<Regular>): seq<int> {
    if rows == [] then []
    else
      var before, r := HardIds(rows[..|rows| - 1]), rows[|rows| - 1];
      if !IsHardlink(r) || HardlinkId(r) in before then before else before + [HardlinkId(r)]
  }

  /** The owner of a hardlinked inode: that of the first row that names it. */
  function HardOwner(rows: seq<Regular>, id: int): Option<Owner> {
    if rows == [] then None
    else
      var before, r := HardOwner(rows[..|rows| - 1], id), rows[|rows| - 1];
      if before.None? && IsHardlink(r) && HardlinkId(r) == id then Some(r.owner) else before
  }

  ghost predicate HardOk(rows: seq<Regular>, id: int, row: InodeRow) {
    && row.id == id && row.kind == RegularKind
    && HardOwner(rows, id) == Some(row.owner) && row.links == Some(Links(rows, id))
  }

  // ------ the dictionaries of the loop ------ //

  /** setdefault(key, len(dict)): the dictionary numbers its keys as they come. */
  ghost predicate Numbers(ids: map<Resource, nat>, keys: seq<Resource>) {
    && |ids| == |keys| && (forall k :: k in ids <==> k in keys)
    && (forall i | 0 <= i < |keys| :: ids[keys[i]] == i)
  }

  lemma {:induction false} NumbersOne(ids: map<Resource, nat>, keys: seq<Resource>, k: Resource)
    requires Numbers(ids, keys)
    ensures k in ids ==> ids[k] < |keys| && keys[ids[k]] == k
    ensures k !in ids ==> Numbers(ids[k := |ids|], keys + [k])
  {
    if k in ids {
      var i :| 0 <= i < |keys| && keys[i] == k;
    } else {
      assert ids[k := |ids|].Keys == ids.Keys + {k};
      assert |ids[k := |ids|].Keys| == |ids.Keys| + 1;
    }
  }

  lemma {:induction false} FirstSeenGrows(rows: seq<Regular>, row: Regular)
    ensures FirstSeen(rows) <= FirstSeen(rows + [row])
    ensures FirstSeen(rows + [row]) ==
            if ResourceOf(row) in FirstSeen(rows) then FirstSeen(rows) else FirstSeen(rows) + [ResourceOf(row)]
  {
    assert (rows + [row])[..|rows|] == rows;
  }

  lemma {:induction false} RegularsOneMore(
      rows: seq<Regular>, row: Regular, start: int, table: seq<RegularRow>, last: RegularRow)
    requires RegularsOk(rows, FirstSeen(rows), start, table)
    requires RegularOk(rows + [row], FirstSeen(rows + [row]), start, |rows|, last)
    ensures RegularsOk(rows + [row], FirstSeen(rows + [row]), start, table + [last])
  {
    var all := rows + [row];
    FirstSeenGrows(rows, row);
    forall i | 0 <= i < |all| ensures RegularOk(all, FirstSeen(all), start, i, (table + [last])[i]) {
      if i < |rows| {
        assert RegularOk(rows, FirstSeen(rows), start, i, table[i]);
        assert all[..i] == rows[..i];
      }
    }
  }

  /** The dictionary of hardlinked inodes, with the order its keys came in. */
  ghost predicate HardsOk(rows: seq<Regular>, hard: map<int, InodeRow>, order: seq<int>) {
    && order == HardIds(rows)
    && (forall i | 0 <= i < |order| :: order[i] in hard)
    && (forall id | id in hard :: id in order && HardOk(rows, id, hard[id]))
  }

  lemma {:induction false} HardIdsAre(rows: seq<Regular>, id: int)
    ensures id in HardIds(rows) <==> Links(rows, id) > 0
    ensures id in HardIds(rows) <==> HardOwner(rows, id).Some?
    ensures id in HardIds(rows) ==> id < 0
  {
    if rows != [] { HardIdsAre(rows[..|rows| - 1], id); }
  }

  lemma {:induction false} HardOneMore(rows: seq<Regular>, row: Regular, hard: map<int, InodeRow>, order: seq<int>)
    requires HardsOk(rows, hard, order) && IsHardlink(row)
    ensures var id := HardlinkId(row);
            if id in hard
            then hard[id].links.Some? && HardsOk(rows + [row],
                hard[id := hard[id].(links := Some(hard[id].links.value + 1))], order)
            else HardsOk(rows + [row], hard[id := InodeRow(id, RegularKind, row.owner, Some(1))], order + [id])
  {
    var all := rows + [row];
    assert all[..|rows|] == rows;
    HardIdsAre(rows, HardlinkId(row));
  }

  lemma {:induction false} HardSkip(rows: seq<Regular>, row: Regular, hard: map<int, InodeRow>, order: seq<int>)
    requires HardsOk(rows, hard, order) && !IsHardlink(row)
    ensures HardsOk(rows + [row], hard, order)
  {
    assert (rows + [row])[..|rows|] == rows;
  }

  function Values(hard: map<int, InodeRow>, order: seq<int>): seq<InodeRow>
    requires forall i | 0 <= i < |order| :: order[i] in hard
  {
    seq(|order|, i requires 0 <= i < |order| => hard[order[i]])
  }

  lemma {:induction false} PlainOneMore(rows: seq<Regular>, row: Regular, start: int)
    ensures Plain(rows + [row]) == Plain(rows) + if IsHardlink(row) then 0 else 1
    ensures PlainInodes(rows + [row], start) ==
            PlainInodes(rows, start)
            + if IsHardlink(row) then [] else [InodeRow(start + Plain(rows), RegularKind, row.owner, None)]
  {
    assert (rows + [row])[..|rows|] == rows;
  }

  lemma {:induction false} PlainInodesAre(rows: seq<Regular>, start: int)
    ensures |PlainInodes(rows, start)| == Plain(rows)
    ensures forall i | 0 <= i < Plain(rows) :: PlainInodes(rows, start)[i].id == start + i
    ensures forall i | 0 <= i < Plain(rows) :: PlainInodes(rows, start)[i].links.None?
  {
    if rows != [] { PlainInodesAre(rows[..|rows| - 1], start); }
  }

  ghost predicate ResourcesOk(rows: seq<Regular>, table: seq<ResourceRow>) {
    |table| == |FirstSeen(rows)| && forall i | 0 <= i < |table| :: table[i] == ResourceRow(i, FirstSeen(rows)[i])
  }

  /** The plain inodes, then one for each hardlinked inode. */
  ghost predicate InodesOk(rows: seq<Regular>, start: int, table: seq<InodeRow>) {
    && |table| == Plain(rows) + |HardIds(rows)|
    && table[..Plain(rows)] == PlainInodes(rows, start)
    && forall j | 0 <= j < |HardIds(rows)| :: HardOk(rows, HardIds(rows)[j], table[Plain(rows) + j])
  }

  lemma {:induction false} InodesTogether(
      rows: seq<Regular>, start: int, plain: seq<InodeRow>, hard: map<int, InodeRow>, order: seq<int>)
    requires plain == PlainInodes(rows, start) && HardsOk(rows, hard, order)
    ensures forall i | 0 <= i < |order| :: order[i] in hard
    ensures InodesOk(rows, start, plain + Values(hard, order))
  {
    PlainInodesAre(rows, start);
    var table := plain + Values(hard, order);
    forall j | 0 <= j < |order| ensures HardOk(rows, order[j], table[Plain(rows) + j]) {
      assert order[j] in hard;
    }
  }

  // ------ the parsers ------ //

  /**
   * The dictionaries of the loop: resources to numbers, and hardlinked inodes, each with the order
   * its keys came in.
   */
  datatype Books = Books(ids: map<Resource, nat>, seen: seq<Resource>, hard: map<int, InodeRow>, order: seq<int>)

  ghost predicate BooksOk(rows: seq<Regular>, books: Books) {
    books.seen == FirstSeen(rows) && Numbers(books.ids, books.seen) && HardsOk(rows, books.hard, books.order)
  }

  method SetDefault(ghost before: seq<Regular>, row: Regular, ids: map<Resource, nat>, seen: seq<Resource>)
    returns (ids': map<Resource, nat>, seen': seq<Resource>, id: nat)
    requires seen == FirstSeen(before) && Numbers(ids, seen)
    ensures seen' == FirstSeen(before + [row]) && Numbers(ids', seen')
    ensures id < |seen'| && seen'[id] == ResourceOf(row)
  {
    var k := ResourceOf(row);
    FirstSeenGrows(before, row);
    NumbersOne(ids, seen, k);
    if k in ids {
      return ids, seen, ids[k];
    }
    return ids[k := |ids|], seen + [k], |ids|;
  }

  method CountLink(ghost before: seq<Regular>, row: Regular, hard: map<int, InodeRow>, order: seq<int>)
    returns (hard': map<int, InodeRow>, order': seq<int>)
    requires HardsOk(before, hard, order) && IsHardlink(row)
    ensures HardsOk(before + [row], hard', order')
  {
    var id := HardlinkId(row);
    HardOneMore(before, row, hard, order);
    if id in hard {
      return hard[id := hard[id].(links := Some(hard[id].links.value + 1))], order;
    }
    return hard[id := InodeRow(id, RegularKind, row.owner, Some(1))], order + [id];
  }

  lemma {:induction false} NewRegularOk(before: seq<Regular>, row: Regular, start: int, last: RegularRow)
    requires last.path == row.path
    requires last.inodeId == if IsHardlink(row) then HardlinkId(row) else start + Plain(before)
    requires last.resourceId < |FirstSeen(before + [row])|
    requires FirstSeen(before + [row])[last.resourceId] == ResourceOf(row)
    ensures RegularOk(before + [row], FirstSeen(before + [row]), start, |before|, last)
  {
    assert (before + [row])[..|before|] == before;
  }

  function DirRows(rows: seq<Directory>, start: int): seq<DirRow> {
    seq(|rows|, i requires 0 <= i < |rows| => DirRow(rows[i].path, start + i))
  }

  function DirInodes(rows: seq<Directory>, start: int): seq<InodeRow> {
    seq(|rows|, i requires 0 <= i < |rows| => InodeRow(start + i, DirectoryKind, rows[i].owner, None))
  }

  function SymlinkRows(rows: seq<Symlink>, start: int): seq<SymlinkRow> {
    seq(|rows|, i requires 0 <= i < |rows| => SymlinkRow(rows[i].link, rows[i].target, start + i))
  }

  function SymlinkInodes(rows: seq<Symlink>, start: int): seq<InodeRow> {
    seq(|rows|, i requires 0 <= i < |rows| => InodeRow(start + i, SymlinkKind, rows[i].owner, None))
  }

  lemma {:induction false} DirOneMore(rows: seq<Directory>, n: nat, start: int)
    requires n < |rows|
    ensures DirRows(rows[..n + 1], start) == DirRows(rows[..n], start) + [DirRow(rows[n].path, start + n)]
    ensures DirInodes(rows[..n + 1], start) ==
        DirInodes(rows[..n], start) + [InodeRow(start + n, DirectoryKind, rows[n].owner, None)]
  {}

  lemma {:induction false} SymlinkOneMore(rows: seq<Symlink>, n: nat, start: int)
    requires n < |rows|
    ensures SymlinkRows(rows[..n + 1], start) ==
        SymlinkRows(rows[..n], start) + [SymlinkRow(rows[n].link, rows[n].target, start + n)]
    ensures SymlinkInodes(rows[..n + 1], start) ==
        SymlinkInodes(rows[..n], start) + [InodeRow(start + n, SymlinkKind, rows[n].owner, None)]
  {}

  lemma {:induction false} Behind<T>(a: seq<T>, b: seq<T>, x: T)
    ensures a + (b + [x]) == a + b + [x] && a + b + [] == a + b
  {}

  class FileTable {
    var regulars: seq<RegularRow>
    var dirs: seq<DirRow>
    var symlinks: seq<SymlinkRow>
    var inodes: seq<InodeRow>
    var resources: seq<ResourceRow>

    constructor ()
      ensures regulars == [] && dirs == [] && symlinks == [] && inodes == [] && resources == []
    {
      regulars, dirs, symlinks, inodes, resources := [], [], [], [], [];
    }

    /** Whatever the batch size, each directory is inserted once and in order, with the next inode number. */
    method ParseDirs(rows: seq<Directory>, inodeStart: int, batchSize: nat) returns (count: nat, next: int)
      requires batchSize > 0
      modifies this`dirs, this`inodes
      ensures count == |rows| && next == inodeStart + |rows|
      ensures dirs == old(dirs) + DirRows(rows, inodeStart)
      ensures inodes == old(inodes) + DirInodes(rows, inodeStart)
    {
      var batch: seq<DirRow>, inodeBatch: seq<InodeRow>, batchCount := [], [], 0;
      next, count := inodeStart, 0;
      while count < |rows|
        invariant count <= |rows| && next == inodeStart + count
        invariant dirs + batch == old(dirs) + DirRows(rows[..count], inodeStart)
        invariant inodes + inodeBatch == old(inodes) + DirInodes(rows[..count], inodeStart)
      {
        var row := rows[count];
        DirOneMore(rows, count, inodeStart);
        Behind(dirs, batch, DirRow(row.path, next));
        Behind(inodes, inodeBatch, InodeRow(next, DirectoryKind, row.owner, None));
        batch := batch + [DirRow(row.path, next)];
        inodeBatch := inodeBatch + [InodeRow(next, DirectoryKind, row.owner, None)];
        count, next := count + 1, next + 1;
        if count / batchSize > batchCount {
          batchCount := count / batchSize;
          dirs, inodes := dirs + batch, inodes + inodeBatch;
          batch, inodeBatch := [], [];
          assert dirs + batch == dirs && inodes + inodeBatch == inodes;
        }
      }
      assert rows[..count] == rows;
      dirs, inodes := dirs + batch, inodes + inodeBatch;
    }

    method ParseSymlinks(rows: seq<Symlink>, inodeStart: int, batchSize: nat) returns (count: nat, next: int)
      requires batchSize > 0
      modifies this`symlinks, this`inodes
      ensures count == |rows| && next == inodeStart + |rows|
      ensures symlinks == old(symlinks) + SymlinkRows(rows, inodeStart)
      ensures inodes == old(inodes) + SymlinkInodes(rows, inodeStart)
    {
      var batch: seq<SymlinkRow>, inodeBatch: seq<InodeRow>, batchCount := [], [], 0;
      next, count := inodeStart, 0;
      while count < |rows|
        invariant count <= |rows| && next == inodeStart + count
        invariant symlinks + batch == old(symlinks) + SymlinkRows(rows[..count], inodeStart)
        invariant inodes + inodeBatch == old(inodes) + SymlinkInodes(rows[..count], inodeStart)
      {
        var row := rows[count];
        SymlinkOneMore(rows, count, inodeStart);
        Behind(symlinks, batch, SymlinkRow(row.link, row.target, next));
        Behind(inodes, inodeBatch, InodeRow(next, SymlinkKind, row.owner, None));
        batch := batch + [SymlinkRow(row.link, row.target, next)];
        inodeBatch := inodeBatch + [InodeRow(next, SymlinkKind, row.owner, None)];
        count, next := count + 1, next + 1;
        if count / batchSize > batchCount {
          batchCount := count / batchSize;
          symlinks, inodes := symlinks + batch, inodes + inodeBatch;
          batch, inodeBatch := [], [];
          assert symlinks + batch == symlinks && inodes + inodeBatch == inodes;
        }
      }
      assert rows[..count] == rows;
      symlinks, inodes := symlinks + batch, inodes + inodeBatch;
    }

    /** The rows gathered so far, inserted or in a batch, are those the file gave so far. */
    ghost predicate Gathered(rows: seq<Regular>, start: int, batch: seq<RegularRow>, inodeBatch: seq<InodeRow>)
      reads this
    {
      && RegularsOk(rows, FirstSeen(rows), start, regulars + batch)
      && inodes + inodeBatch == PlainInodes(rows, start)
    }

    method Insert(ghost rows: seq<Regular>, ghost start: int, batch: seq<RegularRow>, inodeBatch: seq<InodeRow>)
      requires Gathered(rows, start, batch, inodeBatch)
      modifies this`regulars, this`inodes
      ensures Gathered(rows, start, [], [])
    {
      regulars, inodes := regulars + batch, inodes + inodeBatch;
      assert regulars + [] == regulars && inodes + [] == inodes;
    }

    /**
     * Whatever the batch size, each regular file is inserted once and in order; resources are
     * numbered as first seen, plain inodes one after the other, and a hardlinked inode has one row
     * that counts the files naming it.
     */
    method ParseRegulars(rows: seq<Regular>, inodeStart: int, batchSize: nat) returns (count: nat, next: int)
      requires batchSize > 0 && regulars == [] && inodes == []
      modifies this`regulars, this`inodes, this`resources
      ensures count == |rows| && next == inodeStart + Plain(rows)
      ensures RegularsOk(rows, FirstSeen(rows), inodeStart, regulars)
      ensures ResourcesOk(rows, resources)
      ensures InodesOk(rows, inodeStart, inodes)
    {
      var books := Books(map[], [], map[], []);
      var batch: seq<RegularRow>, inodeBatch: seq<InodeRow>, batchCount := [], [], 0;
      next, count := inodeStart, 0;
      assert rows[..0] == [];
      NothingGathered(inodeStart);
      while count < |rows|
        invariant count <= |rows| && next == inodeStart + Plain(rows[..count])
        invariant Gathered(rows[..count], inodeStart, batch, inodeBatch)
        invariant BooksOk(rows[..count], books)
      {
        var row := rows[count];
        TakeOneMore(rows, count);
        books, batch, inodeBatch, next := AddRow(rows[..count], row, books, batch, inodeBatch, inodeStart, next);
        count := count + 1;
        if count / batchSize > batchCount {
          batchCount := count / batchSize;
          Insert(rows[..count], inodeStart, batch, inodeBatch);
          batch, inodeBatch := [], [];
        }
      }
      assert rows[..count] == rows;
      InsertRest(rows, inodeStart, books, batch, inodeBatch);
    }

    lemma {:induction false} NothingGathered(start: int)
      requires regulars == [] && inodes == []
      ensures Gathered([], start, [], []) && BooksOk([], Books(map[], [], map[], []))
    {}

    /** A row is numbered and joins the batches. */
    method AddRow(
        ghost before: seq<Regular>, row: Regular, books: Books,
        batch: seq<RegularRow>, inodeBatch: seq<InodeRow>, ghost start: int, next: int)
      returns (books': Books, batch': seq<RegularRow>, inodeBatch': seq<InodeRow>, next': int)
      requires Gathered(before, start, batch, inodeBatch) && BooksOk(before, books) && next == start + Plain(before)
      ensures Gathered(before + [row], start, batch', inodeBatch') && BooksOk(before + [row], books')
      ensures next' == start + Plain(before + [row])
    {
      var ids, seen, resourceId := SetDefault(before, row, books.ids, books.seen);
      var hard, order, inodeId := books.hard, books.order, next;
      inodeBatch', next' := inodeBatch, next;
      if IsHardlink(row) {
        inodeId := HardlinkId(row);
        hard, order := CountLink(before, row, hard, order);
      } else {
        HardSkip(before, row, hard, order);
        inodeBatch' := inodeBatch + [InodeRow(next, RegularKind, row.owner, None)];
        next' := next + 1;
      }
      var entry := RegularRow(row.path, inodeId, resourceId);
      PlainOneMore(before, row, start);
      NewRegularOk(before, row, start, entry);
      OneMoreGathered(before, row, start, batch, inodeBatch, entry);
      books', batch' := Books(ids, seen, hard, order), batch + [entry];
    }

    /** What is left in the batches goes in, then the hardlinked inodes and the resources. */
    method InsertRest(
        ghost rows: seq<Regular>, ghost start: int, books: Books, batch: seq<RegularRow>, inodeBatch: seq<InodeRow>)
      requires Gathered(rows, start, batch, inodeBatch) && BooksOk(rows, books)
      modifies this`regulars, this`inodes, this`resources
      ensures RegularsOk(rows, FirstSeen(rows), start, regulars)
      ensures ResourcesOk(rows, resources) && InodesOk(rows, start, inodes)
    {
      Insert(rows, start, batch, inodeBatch);
      assert regulars + [] == regulars && inodes + [] == inodes;
      InodesTogether(rows, start, inodes, books.hard, books.order);
      inodes := inodes + Values(books.hard, books.order);
      resources := seq(|books.seen|, i requires 0 <= i < |books.seen| && books.seen[i] in books.ids =>
                         ResourceRow(books.ids[books.seen[i]], books.seen[i]));
    }

    lemma {:induction false} OneMoreGathered(
        rows: seq<Regular>, row: Regular, start: int,
        batch: seq<RegularRow>, inodeBatch: seq<InodeRow>, entry: RegularRow)
      requires Gathered(rows, start, batch, inodeBatch)
      requires RegularOk(rows + [row], FirstSeen(rows + [row]), start, |rows|, entry)
      ensures var next := start + Plain(rows);
              Gathered(rows + [row], start, batch + [entry],
                       if IsHardlink(row)
                       then inodeBatch
                       else inodeBatch + [InodeRow(next, RegularKind, row.owner, None)])
    {
      RegularsOneMore(rows, row, start, regulars + batch, entry);
      Behind(regulars, batch, entry);
      PlainOneMore(rows, row, start);
      Behind(inodes, inodeBatch, InodeRow(start + Plain(rows), RegularKind, row.owner, None));
    }

    /** The tables are those of the image: rows in order, each file continuing the inode numbers of the last. */
    ghost predicate Tabled(regs: seq<Regular>, folders: seq<Directory>, links: seq<Symlink>)
      reads this
    {
      && RegularsOk(regs, FirstSeen(regs), 1, regulars) && ResourcesOk(regs, resources)
      && dirs == DirRows(folders, 1 + Plain(regs))
      && symlinks == SymlinkRows(links, 1 + Plain(regs) + |folders|)
      && ImageInodes(regs, folders, links, inodes)
    }

    /** The three files of an image, one after the other, into an empty table. */
    method ParseImage(regs: seq<Regular>, folders: seq<Directory>, links: seq<Symlink>, batchSize: nat)
      requires batchSize > 0
      requires regulars == [] && dirs == [] && symlinks == [] && inodes == []
      modifies this
      ensures Tabled(regs, folders, links)
    {
      var count, next := ParseRegulars(regs, 1, batchSize);
      ghost var first := inodes;
      count, next := ParseDirs(folders, next, batchSize);
      count, next := ParseSymlinks(links, next, batchSize);
      assert dirs == [] + DirRows(folders, 1 + Plain(regs));
    }
  }

  // ------ what the numbers are good for ------ //

  ghost predicate ImageInodes(regs: seq<Regular>, folders: seq<Directory>, links: seq<Symlink>, table: seq<InodeRow>) {
    exists first: seq<InodeRow> ::
      && InodesOk(regs, 1, first)
      && table == first + DirInodes(folders, 1 + Plain(regs)) + SymlinkInodes(links, 1 + Plain(regs) + |folders|)
  }

  predicate NoDuplicates<T(==)>(s: seq<T>) { forall i, j | 0 <= i < j < |s| :: s[i] != s[j] }

  lemma {:induction false} HardIdsDistinct(rows: seq<Regular>)
    ensures NoDuplicates(HardIds(rows))
  {
    if rows != [] { HardIdsDistinct(rows[..|rows| - 1]); }
  }

  /** The resources of the image are numbered from 0, each distinct digest and size once. */
  lemma {:induction false} ResourcesAreDense(rows: seq<Regular>)
    ensures NoDuplicates(FirstSeen(rows))
    ensures forall i | 0 <= i < |rows| :: ResourceOf(rows[i]) in FirstSeen(rows)
    ensures forall k | k in FirstSeen(rows) :: exists i :: 0 <= i < |rows| && ResourceOf(rows[i]) == k
  {
    if rows != [] {
      var n := |rows| - 1;
      var before := rows[..n];
      ResourcesAreDense(before);
      forall k | k in FirstSeen(rows) ensures exists i :: 0 <= i < |rows| && ResourceOf(rows[i]) == k {
        if k in FirstSeen(before) {
          var i :| 0 <= i < |before| && ResourceOf(before[i]) == k;
          assert ResourceOf(rows[i]) == k;
        } else {
          assert ResourceOf(rows[n]) == k;
        }
      }
      forall i | 0 <= i < |rows| ensures ResourceOf(rows[i]) in FirstSeen(rows) {
        if i < n { assert ResourceOf(before[i]) in FirstSeen(before); }
      }
    }
  }

  /** Two files have the same resource number exactly where they have the same digest and size. */
  lemma {:induction false} SameResourceIff(rows: seq<Regular>, table: seq<RegularRow>, start: int, i: nat, j: nat)
    requires RegularsOk(rows, FirstSeen(rows), start, table) && i < |rows| && j < |rows|
    ensures table[i].resourceId == table[j].resourceId <==> ResourceOf(rows[i]) == ResourceOf(rows[j])
  {
    assert RegularOk(rows, FirstSeen(rows), start, i, table[i]);
    assert RegularOk(rows, FirstSeen(rows), start, j, table[j]);
    ResourcesAreDense(rows);
  }

  /** The id at a place of the whole inode table. */
  function IdAt(regs: seq<Regular>, k: nat): int {
    if k < Plain(regs) then 1 + k
    else if k < Plain(regs) + |HardIds(regs)| then HardIds(regs)[k - Plain(regs)]
    else 1 + k - |HardIds(regs)|
  }

  lemma {:induction false} IdsAre(
      regs: seq<Regular>, folders: seq<Directory>, links: seq<Symlink>, table: seq<InodeRow>, k: nat)
    requires ImageInodes(regs, folders, links, table) && k < |table|
    ensures table[k].id == IdAt(regs, k)
  {
    var first :| InodesOk(regs, 1, first)
      && table == first + DirInodes(folders, 1 + Plain(regs)) + SymlinkInodes(links, 1 + Plain(regs) + |folders|);
    PlainInodesAre(regs, 1);
    var p := Plain(regs);
    if k < p {
      assert first[..p][k] == first[k];
    } else if k < |first| {
      assert HardOk(regs, HardIds(regs)[k - p], first[p + (k - p)]);
    }
  }

  /** No two inodes of an image share a number, whichever of the three files they come from. */
  lemma {:induction false} InodeIdsUnique(
      regs: seq<Regular>, folders: seq<Directory>, links: seq<Symlink>, table: seq<InodeRow>, i: nat, j: nat)
    requires ImageInodes(regs, folders, links, table) && i < j < |table|
    ensures table[i].id != table[j].id
  {
    IdsAre(regs, folders, links, table, i);
    IdsAre(regs, folders, links, table, j);
    HardIdsDistinct(regs);
    var p, h := Plain(regs), HardIds(regs);
    if p <= i < p + |h| {
      assert h[i - p] in h;
      HardIdsAre(regs, h[i - p]);
    }
    if p <= j < p + |h| {
      assert h[j - p] in h;
      HardIdsAre(regs, h[j - p]);
    }
  }

  /** A hardlinked inode counts the files that name it, and there is one for each number named. */
  lemma {:induction false} LinksAreCounted(
      regs: seq<Regular>, folders: seq<Directory>, links: seq<Symlink>, table: seq<InodeRow>, i: nat)
    requires ImageInodes(regs, folders, links, table) && i < |regs| && IsHardlink(regs[i])
    ensures exists k :: 0 <= k < |table| && HardOk(regs, HardlinkId(regs[i]), table[k])
  {
    var id := HardlinkId(regs[i]);
    var first :| InodesOk(regs, 1, first)
      && table == first + DirInodes(folders, 1 + Plain(regs)) + SymlinkInodes(links, 1 + Plain(regs) + |folders|);
    NamedIsLinked(regs, i);
    HardIdsAre(regs, id);
    var j :| 0 <= j < |HardIds(regs)| && HardIds(regs)[j] == id;
    assert HardOk(regs, id, first[Plain(regs) + j]);
    assert table[Plain(regs) + j] == first[Plain(regs) + j];
  }

  lemma {:induction false} NamedIsLinked(rows: seq<Regular>, i: nat)
    requires i < |rows| && IsHardlink(rows[i])
    ensures Links(rows, HardlinkId(rows[i])) > 0
  {
    if i < |rows| - 1 {
      NamedIsLinked(rows[..|rows| - 1], i);
    }
  }

  /** A file with no hardlink has an inode of its own, with its own owner. */
  lemma {:induction false} PlainHasItsInode(rows: seq<Regular>, start: int, i: nat)
    requires i < |rows| && !IsHardlink(rows[i])
    ensures Plain(rows[..i]) < |PlainInodes(rows, start)|
    ensures PlainInodes(rows, start)[Plain(rows[..i])] ==
        InodeRow(InodeIdOf(rows, i, start), RegularKind, rows[i].owner, None)
  {
    PlainInodesAre(rows, start);
    var n := |rows| - 1;
    PlainInodesAre(rows[..n], start);
    if i < n {
      PlainHasItsInode(rows[..n], start, i);
      assert rows[..n][..i] == rows[..i];
    }
  }
}
