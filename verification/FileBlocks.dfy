// The file blocks of the disk file system, bin/fs/fs.c: a file is a list of disk blocks, and
// reading and writing it are reading and splicing one flat sequence of bytes.
module FileBlocks {
  const BLOCK: nat := 512
  const DATA_BITMAP: nat := 2
  const DATA_START: nat := 34
  const MAX_BLOCKS: nat := 15

  // The bitmap has BLOCK entries, so these are all the sectors the file layer can name.
  const SECTORS: nat := DATA_START + BLOCK

  type Byte = x: int | 0 <= x < 256
  type Disk = seq<seq<Byte>>

  // struct inode; data is i_data[..block_count]
  datatype Inode = Inode(file_len: nat, data: seq<nat>)

  // PastInode: the code stores a block number behind the 15 that an inode has room for.
  datatype Option = NoSpace | PastInode | Count(value: nat)

  predicate Formatted(disk: Disk) {
    |disk| == SECTORS && forall s | 0 <= s < SECTORS :: |disk[s]| == BLOCK
  }

  // The entries of a bitmap that are zero
  function Zeros(bitmap: seq<Byte>): set<nat> {
    set b: nat | b < |bitmap| && bitmap[b] == 0
  }

  function Free(disk: Disk): set<nat>
    requires Formatted(disk)
  {
    Zeros(disk[DATA_BITMAP])
  }

  // A data block
  function Block(disk: Disk, b: nat): (r: seq<Byte>)
    requires Formatted(disk) && b < BLOCK
    ensures |r| == BLOCK
  {
    disk[DATA_START + b]
  }

  // Distinct data blocks, all marked in the bitmap
  ghost predicate Listed(disk: Disk, data: seq<nat>)
    requires Formatted(disk)
  {
    && (forall j | 0 <= j < |data| :: data[j] < BLOCK && data[j] !in Free(disk))
    && forall i, j | 0 <= i < j < |data| :: data[i] != data[j]
  }

  // A file that was ever written has the block after its last byte.
  ghost predicate Sized(n: Inode) {
    |n.data| <= MAX_BLOCKS && if n.data == [] then n.file_len == 0 else n.file_len < BLOCK * |n.data|
  }

  ghost predicate Apart(a: seq<nat>, b: seq<nat>) {
    forall i, j | 0 <= i < |a| && 0 <= j < |b| :: a[i] != b[j]
  }

  ghost predicate Sound(disk: Disk, inodes: seq<Inode>) {
    && Formatted(disk)
    && (forall f | 0 <= f < |inodes| :: Sized(inodes[f]) && Listed(disk, inodes[f].data))
    && forall f, g | 0 <= f < g < |inodes| :: Apart(inodes[f].data, inodes[g].data)
  }

  // The bytes of a file
  ghost function Contents(disk: Disk, n: Inode): (r: seq<Byte>)
    requires Formatted(disk) && Sized(n) && Listed(disk, n.data)
    ensures |r| == n.file_len
  {
    seq(n.file_len, k requires 0 <= k < n.file_len => Block(disk, n.data[k / BLOCK])[k % BLOCK])
  }

  // c with d written over it at pos, and longer if d does not fit
  function Splice(c: seq<Byte>, pos: nat, d: seq<Byte>): seq<Byte>
    requires pos <= |c|
  {
    c[..pos] + d + (if pos + |d| <= |c| then c[pos + |d|..] else [])
  }

  // What is written at a position is read back from it, and the rest is as before.
  lemma SpliceReadsBack(c: seq<Byte>, pos: nat, d: seq<Byte>)
    requires pos <= |c|
    ensures var r := Splice(c, pos, d);
      && |r| == (if pos + |d| <= |c| then |c| else pos + |d|)
      && r[pos..pos + |d|] == d && r[..pos] == c[..pos]
      && forall k | pos + |d| <= k < |c| :: r[k] == c[k]
  {}

  // ----- a write under way -----

  // d is d0 after the first `done` bytes of src went to position pos of the file.
  ghost predicate Written(d0: Disk, d: Disk, data: seq<nat>, src: seq<Byte>, pos: nat, done: nat) {
    && Formatted(d0) && Formatted(d) && Listed(d0, data) && done <= |src|
    && (forall s | 0 <= s < DATA_START :: d[s] == d0[s])
    && (forall b: nat | b < BLOCK && b !in data :: Block(d, b) == Block(d0, b))
    && forall j, o | 0 <= j < |data| && 0 <= o < BLOCK ::
         Block(d, data[j])[o]
           == if pos <= BLOCK * j + o < pos + done then src[BLOCK * j + o - pos] else Block(d0, data[j])[o]
  }

  function Patch(s: seq<Byte>, offset: nat, d: seq<Byte>): (r: seq<Byte>)
    requires offset + |d| <= |s|
    ensures |r| == |s| && forall o | 0 <= o < |s| :: r[o] == if offset <= o < offset + |d| then d[o - offset] else s[o]
  {
    s[..offset] + d + s[offset + |d|..]
  }

  function PatchBlock(d: Disk, block: nat, offset: nat, bytes: seq<Byte>): (r: Disk)
    requires Formatted(d) && block < BLOCK && offset + |bytes| <= BLOCK
    ensures Formatted(r)
  {
    d[DATA_START + block := Patch(Block(d, block), offset, bytes)]
  }

  lemma WrittenStep(d0: Disk, d: Disk, data: seq<nat>, src: seq<Byte>, pos: nat, done: nat, j: nat, n: nat)
    requires Written(d0, d, data, src, pos, done) && j < |data|
    requires BLOCK * j <= pos + done && pos + done + n <= BLOCK * j + BLOCK && done + n <= |src|
    ensures Written(d0, PatchBlock(d, data[j], pos + done - BLOCK * j, src[done..done + n]), data, src, pos, done + n)
  {
    var offset := pos + done - BLOCK * j;
    var e := PatchBlock(d, data[j], offset, src[done..done + n]);
    forall i, o | 0 <= i < |data| && 0 <= o < BLOCK
      ensures Block(e, data[i])[o]
           == if pos <= BLOCK * i + o < pos + done + n then src[BLOCK * i + o - pos] else Block(d0, data[i])[o]
    {
      if i != j {
        assert data[i] != data[j];
        assert Block(e, data[i]) == Block(d, data[i]);
      }
    }
  }

  lemma WrittenBitmap(d0: Disk, d: Disk, data: seq<nat>, src: seq<Byte>, pos: nat, done: nat)
    requires Written(d0, d, data, src, pos, done)
    ensures Free(d) == Free(d0)
  {
    assert d[DATA_BITMAP] == d0[DATA_BITMAP];
  }

  // A file with blocks of its own is not touched.
  lemma WrittenElsewhere(d0: Disk, d: Disk, data: seq<nat>, src: seq<Byte>, pos: nat, done: nat, n: Inode)
    requires Written(d0, d, data, src, pos, done) && Sized(n) && Listed(d0, n.data) && Apart(data, n.data)
    ensures Listed(d, n.data) && Contents(d, n) == Contents(d0, n)
  {
    WrittenBitmap(d0, d, data, src, pos, done);
    forall k | 0 <= k < n.file_len ensures Contents(d, n)[k] == Contents(d0, n)[k] {
      var j := k / BLOCK;
      assert n.data[j] !in data;
    }
  }

  // All of src is written: the file is spliced.
  lemma WrittenAll(d0: Disk, d: Disk, was: Inode, data: seq<nat>, src: seq<Byte>, pos: nat)
    requires Written(d0, d, data, src, pos, |src|)
    requires was.data <= data && |data| <= MAX_BLOCKS && pos <= was.file_len && pos + |src| < BLOCK * |data|
    requires Sized(was) && Listed(d0, was.data)
    ensures var n := Inode(if pos + |src| >= was.file_len then pos + |src| else was.file_len, data);
      Sized(n) && Listed(d, data) && Contents(d, n) == Splice(Contents(d0, was), pos, src)
  {
    WrittenBitmap(d0, d, data, src, pos, |src|);
    var n := Inode(if pos + |src| >= was.file_len then pos + |src| else was.file_len, data);
    var r := Splice(Contents(d0, was), pos, src);
    assert |r| == n.file_len;
    forall k | 0 <= k < n.file_len ensures Contents(d, n)[k] == r[k] {
      var j, o := k / BLOCK, k % BLOCK;
      assert k == BLOCK * j + o;
      assert Contents(d, n)[k] == Block(d, data[j])[o];
      if !(pos <= k < pos + |src|) {
        assert was.data[j] == data[j];
        assert Contents(d0, was)[k] == Block(d0, data[j])[o];
      }
    }
  }

  // ----- taking blocks -----

  function Marked(disk: Disk, b: nat): (r: Disk)
    requires Formatted(disk) && b < BLOCK
    ensures Formatted(r)
  {
    disk[DATA_BITMAP := disk[DATA_BITMAP][b := 1]]
  }

  lemma MarkedFree(disk: Disk, b: nat)
    requires Formatted(disk) && b < BLOCK
    ensures Free(Marked(disk, b)) == Free(disk) - {b}
  {}

  // The bitmap may differ; no free block of a is listed in b's files.
  lemma SameContents(a: Disk, b: Disk, n: Inode)
    requires Formatted(a) && Formatted(b) && Sized(n) && Listed(a, n.data) && Free(b) <= Free(a)
    requires forall s | DATA_START <= s < SECTORS :: b[s] == a[s]
    ensures Listed(b, n.data) && Contents(b, n) == Contents(a, n)
  {}

  // ----- the code -----

  // struct file: its inode number and position
  class File {
    var inode: nat
    var f_pos: nat

    constructor (inode: nat)
      ensures this.inode == inode && f_pos == 0
    {
      this.inode, f_pos := inode, 0;
    }
  }

  class FileSystem {
    var disk: Disk
    var inodes: seq<Inode>
    const commonBuf: array<Byte>
    const dataBitmap: array<Byte>

    ghost predicate Valid()
      reads this
    {
      commonBuf.Length == 4096 && dataBitmap.Length == BLOCK + 2 && commonBuf != dataBitmap && Sound(disk, inodes)
    }

    // init_fs zeroes every sector: no block is taken and every inode is empty.
    constructor (count: nat)
      ensures Valid() && fresh(commonBuf) && fresh(dataBitmap) && |inodes| == count
      ensures forall f | 0 <= f < count :: Contents(disk, inodes[f]) == []
      ensures |Free(disk)| == BLOCK
    {
      commonBuf, dataBitmap := new Byte[4096](_ => 0), new Byte[BLOCK + 2](_ => 0);
      disk := seq(SECTORS, _ => seq(BLOCK, _ => 0));
      inodes := seq(count, _ => Inode(0, []));
      new;
      AllZeros(disk[DATA_BITMAP]);
    }

    // read_data_bitmap and the search in get_free_data; NoSpace is the -1
    method GetFreeData() returns (r: Option)
      requires Valid()
      modifies commonBuf, dataBitmap
      ensures r.NoSpace? <==> Free(disk) == {}
      ensures !r.PastInode?
      ensures r.Count? ==> r.value in Free(disk) && forall b | b in Free(disk) :: r.value <= b
    {
      ReadDataBitmap();
      var i := 0;
      while i < BLOCK
        invariant i <= BLOCK && forall b | 0 <= b < i :: dataBitmap[b] != 0
      {
        if dataBitmap[i] == 0 {
          assert i in Free(disk);
          return Count(i);
        }
        i := i + 1;
      }
      return NoSpace;
    }

    method ReadDataBitmap()
      requires Valid()
      modifies commonBuf, dataBitmap
      ensures dataBitmap[..BLOCK] == disk[DATA_BITMAP]
    {
      ReadSata(DATA_BITMAP);
      forall k | 0 <= k < BLOCK { dataBitmap[k] := commonBuf[k]; }
    }

    method SetDataBitmap(id: nat)
      requires Valid() && id < BLOCK
      modifies this`disk, commonBuf, dataBitmap
      ensures disk == Marked(old(disk), id)
    {
      ReadDataBitmap();
      dataBitmap[id] := 1;
      forall k | 0 <= k < BLOCK { commonBuf[k] := dataBitmap[k]; }
      WriteSata(DATA_BITMAP);
      assert disk[DATA_BITMAP] == old(disk)[DATA_BITMAP][id := 1];
    }

    // One sector into the buffer
    method ReadSata(s: nat)
      requires commonBuf.Length == 4096 && Formatted(disk) && s < SECTORS
      modifies commonBuf
      ensures commonBuf[..BLOCK] == disk[s]
    {
      forall k | 0 <= k < BLOCK { commonBuf[k] := disk[s][k]; }
    }

    // One sector from the buffer
    method WriteSata(s: nat)
      requires commonBuf.Length == 4096 && Formatted(disk) && s < SECTORS
      modifies this`disk
      ensures disk == old(disk)[s := commonBuf[..BLOCK]] && Formatted(disk)
    {
      disk := disk[s := commonBuf[..BLOCK]];
    }

    // get_data: `count` bytes of a block into buf, from index `at` on
    method GetData(index: nat, buf: array<Byte>, at: nat, offset: nat, count: nat)
      requires commonBuf.Length == 4096 && Formatted(disk) && index < BLOCK && buf != commonBuf
      requires offset + count <= BLOCK && at + count <= buf.Length
      modifies commonBuf, buf
      ensures buf[at..at + count] == Block(disk, index)[offset..offset + count]
      ensures buf[..at] == old(buf[..at]) && buf[at + count..] == old(buf[at + count..])
    {
      ReadSata(DATA_START + index);
      ghost var s := commonBuf[..BLOCK];
      assert forall k | offset <= k < offset + count :: commonBuf[k] == s[k];
      forall k | at <= k < at + count { buf[k] := commonBuf[offset + (k - at)]; }
      assert forall k | at <= k < at + count :: buf[k] == s[offset + (k - at)];
    }

    // write_data: the same the other way
    method WriteData(index: nat, buf: array<Byte>, at: nat, offset: nat, count: nat)
      requires commonBuf.Length == 4096 && Formatted(disk) && index < BLOCK && buf != commonBuf
      requires offset + count <= BLOCK && at + count <= buf.Length
      modifies this`disk, commonBuf
      ensures disk == PatchBlock(old(disk), index, offset, buf[at..at + count])
    {
      ReadSata(DATA_START + index);
      ghost var s := Block(disk, index);
      assert forall k | 0 <= k < BLOCK :: commonBuf[k] == commonBuf[..BLOCK][k] == s[k];
      forall k | offset <= k < offset + count { commonBuf[k] := buf[at + (k - offset)]; }
      assert commonBuf[..BLOCK] == Patch(s, offset, buf[at..at + count]);
      WriteSata(DATA_START + index);
    }

    // The loop that adds blocks to the inode: it fails if and only if there are too few.
    method AddBlocks(data: seq<nat>, count: int) returns (r: Option, more: seq<nat>)
      requires Valid() && Listed(disk, data) && |data| <= MAX_BLOCKS
      modifies this`disk, commonBuf, dataBitmap
      ensures Formatted(disk) && Free(disk) <= old(Free(disk))
      ensures forall s | 0 <= s < SECTORS && s != DATA_BITMAP :: disk[s] == old(disk[s])
      ensures r.PastInode? <==> count > MAX_BLOCKS - |data| && old(|Free(disk)|) > MAX_BLOCKS - |data|
      ensures r.NoSpace? <==> count > old(|Free(disk)|) && old(|Free(disk)|) <= MAX_BLOCKS - |data|
      ensures r.NoSpace? ==> Free(disk) == {}
      ensures r.Count? ==> Listed(disk, more) && data <= more && |more| == |data| + (if count > 0 then count else 0)
      ensures r.Count? ==> forall j | |data| <= j < |more| :: more[j] in old(Free(disk))
    {
      more := data;
      var left := count;
      while left > 0
        invariant left <= count && (count <= 0 ==> left == count) && (count > 0 ==> left >= 0)
        invariant Valid() && Listed(disk, more) && data <= more
        invariant |more| == |data| + (count - left) && |more| <= MAX_BLOCKS
        invariant |Free(disk)| == old(|Free(disk)|) - (count - left) && Free(disk) <= old(Free(disk))
        invariant forall s | 0 <= s < SECTORS && s != DATA_BITMAP :: disk[s] == old(disk[s])
        invariant forall j | |data| <= j < |more| :: more[j] in old(Free(disk))
      {
        var b := GetFreeData();
        if b.NoSpace? {
          return NoSpace, more;
        }
        MarkedFree(disk, b.value);
        ghost var before := disk;
        SetDataBitmap(b.value);
        MarkedSound(before, inodes, b.value);
        MarkedListed(before, more, b.value);
        if |more| == MAX_BLOCKS {
          return PastInode, more;
        }
        more := more + [b.value];
        left := left - 1;
      }
      r := Count(0);
    }

    // read_sata_wrapper
    method Read(fd: File, buf: array<Byte>, count: nat) returns (n: nat)
      requires Valid() && fd.inode < |inodes| && fd.f_pos <= inodes[fd.inode].file_len
      requires count <= buf.Length && buf != commonBuf
      modifies fd`f_pos, commonBuf, buf
      ensures fd.f_pos == old(fd.f_pos) + n
      ensures var c := Contents(disk, inodes[fd.inode]); var left := |c| - old(fd.f_pos);
        n == (if count < left then count else left) && buf[..n] == c[old(fd.f_pos)..old(fd.f_pos) + n]
      ensures buf[n..] == old(buf[n..])
    {
      hide Contents, Formatted, Listed;
      var node := inodes[fd.inode];
      if fd.f_pos == node.file_len {
        return 0;
      }
      n := if fd.f_pos + count >= node.file_len then node.file_len - fd.f_pos else count;
      ReadBlocks(node, fd.f_pos, buf, n);
      fd.f_pos := fd.f_pos + n;
    }

    // Bytes of one block, appended to what is in buf
    method ReadPiece(node: Inode, j: nat, offset: nat, buf: array<Byte>, at: nat, m: nat, ghost pos: nat, ghost n: nat)
      requires commonBuf.Length == 4096 && Formatted(disk) && Sized(node) && Listed(disk, node.data)
      requires buf != commonBuf && at + m <= n <= buf.Length
      requires pos + at + m <= node.file_len && j < |node.data| && BLOCK * j + offset == pos + at && offset + m <= BLOCK
      requires buf[..at] == Contents(disk, node)[pos..pos + at]
      modifies commonBuf, buf
      ensures buf[..at + m] == Contents(disk, node)[pos..pos + at + m] && buf[n..] == old(buf[n..])
    {
      hide Contents, Formatted;
      ghost var was := buf[..];
      GetData(node.data[j], buf, at, offset, m);
      ReadPart(disk, node, j, offset, m);
      ReadMore(was, buf[..], Contents(disk, node), pos, at, m, n);
    }

    // The first block, the blocks in the middle and the last
    method ReadBlocks(node: Inode, pos: nat, buf: array<Byte>, n: nat)
      requires commonBuf.Length == 4096 && Formatted(disk) && Sized(node) && Listed(disk, node.data)
      requires pos + n <= node.file_len && node.data != [] && n <= buf.Length && buf != commonBuf
      modifies commonBuf, buf
      ensures buf[..n] == Contents(disk, node)[pos..pos + n] && buf[n..] == old(buf[n..])
    {
      hide Contents, Formatted, Listed;
      var first, last := pos / BLOCK, (pos + n) / BLOCK;
      if first == last {
        ReadPiece(node, first, pos % BLOCK, buf, 0, n, pos, n);
        return;
      }
      var at := BLOCK - pos % BLOCK;
      ReadPiece(node, first, pos % BLOCK, buf, 0, at, pos, n);
      var i := first + 1;
      while i < last
        invariant first + 1 <= i <= last && at == BLOCK * i - pos && at <= n
        invariant buf[..at] == Contents(disk, node)[pos..pos + at]
        invariant buf[n..] == old(buf[n..])
      {
        ReadPiece(node, i, 0, buf, at, BLOCK, pos, n);
        at := at + BLOCK;
        i := i + 1;
      }
      ReadPiece(node, last, 0, buf, at, (pos + n) % BLOCK, pos, n);
    }

    // write_sata_wrapper
    method Write(fd: File, buf: array<Byte>, count: nat) returns (r: Option)
      requires Valid() && fd.inode < |inodes| && fd.f_pos <= inodes[fd.inode].file_len
      requires count <= buf.Length && buf != commonBuf && buf != dataBitmap
      modifies this`disk, this`inodes, fd`f_pos, commonBuf, dataBitmap
      ensures !r.PastInode? ==> Valid() && |inodes| == old(|inodes|)
      ensures var room, free := MAX_BLOCKS - old(|inodes[fd.inode].data|), old(|Free(disk)|);
        var needed := (old(fd.f_pos) + count) / BLOCK + 1 - old(|inodes[fd.inode].data|);
        && (r.PastInode? <==> needed > room && free > room)
        && (r.NoSpace? <==> needed > free && free <= room)
      ensures r.NoSpace? ==> fd.f_pos == old(fd.f_pos) && inodes == old(inodes) && Free(disk) == {}
      ensures r.NoSpace? ==> Contents(disk, inodes[fd.inode]) == old(Contents(disk, inodes[fd.inode]))
      ensures r.Count? ==> r.value == count && fd.f_pos == old(fd.f_pos) + count
      ensures r.Count? ==>
        Contents(disk, inodes[fd.inode]) == Splice(old(Contents(disk, inodes[fd.inode])), old(fd.f_pos), buf[..count])
      ensures !r.PastInode? ==> forall f | 0 <= f < |inodes| && f != fd.inode ::
        inodes[f] == old(inodes[f]) && Contents(disk, inodes[f]) == old(Contents(disk, inodes[f]))
    {
      hide Contents, Free, Formatted, Listed, Apart, Splice, Written;
      var node := inodes[fd.inode];
      var pos := fd.f_pos;
      var last := (pos + count) / BLOCK;
      var more;
      r, more := AddBlocks(node.data, last - (|node.data| - 1));
      Kept(old(disk), disk, inodes);
      if !r.Count? {
        return;
      }
      MoreApart(old(disk), inodes, fd.inode, more);
      ghost var d0 := disk;
      WriteBlocks(more, pos, buf, count);
      fd.f_pos := pos + count;
      WrittenSound(d0, disk, inodes, fd.inode, more, buf[..count], pos);
      inodes := inodes[fd.inode := Inode(if fd.f_pos >= node.file_len then fd.f_pos else node.file_len, more)];
      r := Count(count);
    }

    // The first block, the blocks in the middle and the last
    method WriteBlocks(data: seq<nat>, pos: nat, buf: array<Byte>, count: nat)
      requires commonBuf.Length == 4096 && Formatted(disk) && Listed(disk, data)
      requires (pos + count) / BLOCK < |data| && count <= buf.Length && buf != commonBuf
      modifies this`disk, commonBuf
      ensures Written(old(disk), disk, data, buf[..count], pos, count)
    {
      hide Formatted, Written, PatchBlock, Free;
      var first, last := pos / BLOCK, (pos + count) / BLOCK;
      ghost var d0 := disk;
      ghost var src := buf[..count];
      WrittenNone(d0, data, src, pos);
      if first == last {
        WriteData(data[first], buf, 0, pos % BLOCK, count);
        assert src[0..0 + count] == buf[0..0 + count];
        WrittenStep(d0, d0, data, src, pos, 0, first, count);
        return;
      }
      var at := BLOCK - pos % BLOCK;
      WriteData(data[first], buf, 0, pos % BLOCK, at);
      assert src[0..0 + at] == buf[0..0 + at];
      WrittenStep(d0, d0, data, src, pos, 0, first, at);
      var i := first + 1;
      while i < last
        invariant first + 1 <= i <= last && at == BLOCK * i - pos && at <= count
        invariant Formatted(disk) && Written(d0, disk, data, src, pos, at)
      {
        ghost var d := disk;
        WriteData(data[i], buf, at, 0, BLOCK);
        assert src[at..at + BLOCK] == buf[at..at + BLOCK];
        WrittenStep(d0, d, data, src, pos, at, i, BLOCK);
        at := at + BLOCK;
        i := i + 1;
      }
      ghost var d := disk;
      WriteData(data[last], buf, at, 0, (pos + count) % BLOCK);
      assert src[at..at + (count - at)] == buf[at..count];
      WrittenStep(d0, d, data, src, pos, at, last, count - at);
    }
  }

  lemma {:induction false} AllZeros(bitmap: seq<Byte>)
    requires forall b | 0 <= b < |bitmap| :: bitmap[b] == 0
    ensures |Zeros(bitmap)| == |bitmap|
  {
    if bitmap == [] {
      assert Zeros(bitmap) == {};
    } else {
      var n := |bitmap| - 1;
      AllZeros(bitmap[..n]);
      assert Zeros(bitmap) == Zeros(bitmap[..n]) + {n};
    }
  }

  lemma MarkedListed(disk: Disk, data: seq<nat>, b: nat)
    requires Formatted(disk) && Listed(disk, data) && b in Free(disk)
    ensures Listed(Marked(disk, b), data + [b])
  {
    MarkedFree(disk, b);
  }

  lemma MarkedSound(disk: Disk, inodes: seq<Inode>, b: nat)
    requires Sound(disk, inodes) && b < BLOCK
    ensures Sound(Marked(disk, b), inodes)
  {
    MarkedFree(disk, b);
  }

  // Only the bitmap changed, and blocks were only marked.
  lemma Kept(a: Disk, b: Disk, inodes: seq<Inode>)
    requires Sound(a, inodes) && Formatted(b) && Free(b) <= Free(a)
    requires forall s | 0 <= s < SECTORS && s != DATA_BITMAP :: b[s] == a[s]
    ensures Sound(b, inodes)
    ensures forall f | 0 <= f < |inodes| :: Contents(b, inodes[f]) == Contents(a, inodes[f])
  {
    forall f | 0 <= f < |inodes| ensures Listed(b, inodes[f].data) && Contents(b, inodes[f]) == Contents(a, inodes[f]) {
      SameContents(a, b, inodes[f]);
    }
  }

  // New blocks belong to no other file.
  lemma MoreApart(disk: Disk, inodes: seq<Inode>, f: nat, more: seq<nat>)
    requires Sound(disk, inodes) && f < |inodes| && inodes[f].data <= more
    requires forall j | |inodes[f].data| <= j < |more| :: more[j] in Free(disk)
    ensures forall g | 0 <= g < |inodes| && g != f :: Apart(more, inodes[g].data)
  {
    hide Free;
    forall g, i, j | 0 <= g < |inodes| && g != f && 0 <= i < |more| && 0 <= j < |inodes[g].data|
      ensures more[i] != inodes[g].data[j]
    {
      assert Listed(disk, inodes[g].data);
      if i < |inodes[f].data| {
        assert more[i] == inodes[f].data[i];
        assert if f < g then Apart(inodes[f].data, inodes[g].data) else Apart(inodes[g].data, inodes[f].data);
      }
    }
  }

  lemma WrittenNone(d: Disk, data: seq<nat>, src: seq<Byte>, pos: nat)
    requires Formatted(d) && Listed(d, data)
    ensures Written(d, d, data, src, pos, 0)
  {}

  // n bytes of a file within one block
  lemma ReadPart(disk: Disk, n: Inode, j: nat, offset: nat, count: nat)
    requires Formatted(disk) && Sized(n) && Listed(disk, n.data)
    requires j < |n.data| && offset + count <= BLOCK && BLOCK * j + offset + count <= n.file_len
    ensures Contents(disk, n)[BLOCK * j + offset..BLOCK * j + offset + count] ==
      Block(disk, n.data[j])[offset..offset + count]
  {
    var c, b, pos := Contents(disk, n), Block(disk, n.data[j]), BLOCK * j + offset;
    forall k | pos <= k < pos + count ensures c[k] == b[offset + (k - pos)] {
      assert k / BLOCK == j && k % BLOCK == offset + (k - pos);
    }
  }

  // One more piece of the buffer is filled; what is behind all n bytes is not touched.
  lemma ReadMore(was: seq<Byte>, buf: seq<Byte>, c: seq<Byte>, pos: nat, at: nat, m: nat, n: nat)
    requires at + m <= n <= |buf| && |was| == |buf| && pos + at + m <= |c|
    requires was[..at] == c[pos..pos + at] && buf[at..at + m] == c[pos + at..pos + at + m]
    requires buf[..at] == was[..at] && buf[at + m..] == was[at + m..]
    ensures buf[..at + m] == c[pos..pos + at + m] && buf[n..] == was[n..]
  {
    assert buf[..at + m] == buf[..at] + buf[at..at + m];
    assert c[pos..pos + at + m] == c[pos..pos + at] + c[pos + at..pos + at + m];
    assert buf[n..] == buf[at + m..][n - at - m..];
    assert was[n..] == was[at + m..][n - at - m..];
  }

  // A finished write: the file is spliced, every other file is as before.
  lemma WrittenSound(d0: Disk, d: Disk, inodes: seq<Inode>, f: nat, data: seq<nat>, src: seq<Byte>, pos: nat)
    requires Sound(d0, inodes) && f < |inodes| && Written(d0, d, data, src, pos, |src|)
    requires inodes[f].data <= data && |data| <= MAX_BLOCKS && pos <= inodes[f].file_len && pos + |src| < BLOCK * |data|
    requires forall g | 0 <= g < |inodes| && g != f :: Apart(data, inodes[g].data)
    ensures var len := if pos + |src| >= inodes[f].file_len then pos + |src| else inodes[f].file_len;
      var after := inodes[f := Inode(len, data)];
      && Sound(d, after)
      && Contents(d, after[f]) == Splice(Contents(d0, inodes[f]), pos, src)
      && forall g | 0 <= g < |inodes| && g != f :: Contents(d, after[g]) == Contents(d0, inodes[g])
  {
    WrittenAll(d0, d, inodes[f], data, src, pos);
    forall g | 0 <= g < |inodes| && g != f
      ensures Listed(d, inodes[g].data) && Contents(d, inodes[g]) == Contents(d0, inodes[g])
    {
      WrittenElsewhere(d0, d, data, src, pos, |src|, inodes[g]);
    }
  }
}
