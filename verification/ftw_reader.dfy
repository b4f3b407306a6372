/** `FTWReader`: a tensor's byte range becomes pieces of shard files, the pieces become read jobs,
    and the jobs fill the destination buffer in any order. */
module FtwReader {
  import opened Choice
  import opened FtwFormat

  /** `len` bytes of a shard file that belong at `destOff` of the destination. Jobs have this shape too. */
  datatype Piece = Piece(file: nat, fileOff: nat, destOff: nat, len: nat) {
    function DestEnd(): nat { destOff + len }
  }

  /** `Failed`: a file is missing or too short, or the system refuses a read. */
  datatype Outcome<T> = Ok(value: T) | Gap | Exceeds | Failed | BadBank

  /** How files are read: from a mapping, or directly; a strict system refuses direct reads off the page
      grid. */
  datatype Backend = Mapped | Direct(strict: bool)

  // ---- what pieces must be ----

  /** One after the other, none empty, the pieces fill [from, to) of the destination. */
  ghost predicate Chained(pieces: seq<Piece>, from: nat, to: nat) {
    if pieces == [] then from == to
    else pieces[0].destOff == from && pieces[0].len > 0 && Chained(pieces[1..], pieces[0].DestEnd(), to)
  }

  /** A piece lies in a shard, at the place that holds region offset `off + destOff`. */
  ghost predicate InShard(p: Piece, s: Shard, off: nat) {
    s.file == p.file && s.off + p.fileOff == off + p.destOff && p.fileOff + p.len <= s.nbytes
  }

  ghost predicate InSome(p: Piece, shards: seq<Shard>, off: nat) {
    exists s :: s in shards && InShard(p, s, off)
  }

  ghost predicate AllIn(pieces: seq<Piece>, shards: seq<Shard>, off: nat) {
    forall p :: p in pieces ==> InSome(p, shards, off)
  }

  lemma {:induction false} ChainedSnoc(pieces: seq<Piece>, p: Piece, from: nat, to: nat)
    requires Chained(pieces, from, to) && p.destOff == to && p.len > 0
    ensures Chained(pieces + [p], from, p.DestEnd())
    decreases |pieces|
  {
    if pieces == [] {
      assert (pieces + [p])[1..] == [];
    } else {
      ChainedSnoc(pieces[1..], p, pieces[0].DestEnd(), to);
      assert (pieces + [p])[1..] == pieces[1..] + [p];
    }
  }

  /** Chained pieces are disjoint, in order, and inside the range. */
  lemma {:induction false} ChainedOrder(pieces: seq<Piece>, from: nat, to: nat)
    requires Chained(pieces, from, to)
    ensures from <= to
    ensures forall p :: p in pieces ==> from <= p.destOff && p.DestEnd() <= to
    ensures forall i, j :: 0 <= i < j < |pieces| ==> pieces[i].DestEnd() <= pieces[j].destOff
    decreases |pieces|
  {
    if pieces != [] { ChainedOrder(pieces[1..], pieces[0].DestEnd(), to); }
  }

  /** Every place of the range belongs to some piece. */
  lemma {:induction false} ChainedCovers(pieces: seq<Piece>, from: nat, to: nat, d: nat) returns (i: nat)
    requires Chained(pieces, from, to) && from <= d < to
    ensures i < |pieces| && pieces[i].destOff <= d < pieces[i].DestEnd()
    decreases |pieces|
  {
    if d < pieces[0].DestEnd() {
      i := 0;
    } else {
      var k := ChainedCovers(pieces[1..], pieces[0].DestEnd(), to, d);
      i := k + 1;
    }
  }

  /** Every piece starts on a page, in its file and in the destination. */
  ghost predicate Paged(pieces: seq<Piece>) {
    forall p :: p in pieces ==> p.fileOff % ALIGN == 0 && p.destOff % ALIGN == 0
  }

  /** A piece up to the end of its shard. */
  ghost predicate EndsShard(p: Piece, shards: seq<Shard>, off: nat) {
    exists s :: s in shards && InShard(p, s, off) && p.fileOff + p.len == s.nbytes
  }

  /** All pieces but the last, or all, end their shards. */
  ghost predicate EndShards(pieces: seq<Piece>, n: int, shards: seq<Shard>, off: nat) {
    forall k :: 0 <= k < n && k < |pieces| ==> EndsShard(pieces[k], shards, off)
  }

  /** Where a piece that starts on a page inside a page-aligned shard lies, and where the shard ends. */
  lemma PageStep(s: Shard, off: nat, destOff: nat)
    requires s.off % ALIGN == 0 && s.nbytes % ALIGN == 0 && off % ALIGN == 0 && destOff % ALIGN == 0
    ensures (off + destOff - s.off) % ALIGN == 0 && (s.End() - off) % ALIGN == 0
  {
  }

  // ---- FTWReader._pieces ----

  /** The pieces of [off, off + nbytes). On shards that tile a region it succeeds exactly when the
      range is empty or inside, and never finds a gap. */
  method Pieces(shards: seq<Shard>, off: nat, nbytes: nat) returns (r: Outcome<seq<Piece>>)
    ensures r.Ok? ==> Chained(r.value, 0, nbytes) && AllIn(r.value, shards, off)
    ensures forall total :: Tiles(shards, 0, total) ==> !r.Gap? && (r.Ok? <==> nbytes == 0 || off + nbytes <= total)
    ensures r.Ok? && AlignedShards(shards) && off % ALIGN == 0 ==> Paged(r.value)
    ensures r.Ok? ==> EndShards(r.value, |r.value| - 1, shards, off)
    ensures !r.Failed? && !r.BadBank?
  {
    var pieces: seq<Piece> := [];
    var pos: nat, destOff: nat, remaining: nat := off, 0, nbytes;
    ghost var mid: nat := 0;
    for k := 0 to |shards|
      invariant pos == off + destOff && destOff + remaining == nbytes
      invariant Chained(pieces, 0, destOff) && AllIn(pieces, shards, off)
      invariant forall total :: Tiles(shards, 0, total) ==> Tiles(shards[k..], mid, total)
      invariant remaining > 0 ==> mid <= pos
      invariant AlignedShards(shards) && off % ALIGN == 0 ==> Paged(pieces) && (remaining > 0 ==> destOff % ALIGN == 0)
      invariant destOff > 0 ==> exists s :: s in shards && pos <= s.End()
      invariant EndShards(pieces, if remaining > 0 then |pieces| else |pieces| - 1, shards, off)
    {
      var sh := shards[k];
      assert shards[k..][1..] == shards[k + 1..];
      assert forall total :: Tiles(shards, 0, total) ==> Tiles(shards[k..], mid, total) && sh.off == mid;
      if pos >= sh.End() || remaining == 0 {
        mid := sh.End();
        continue;
      }
      if pos < sh.off {
        return Gap;
      }
      var take := if remaining < sh.End() - pos then remaining else sh.End() - pos;
      var p := Piece(sh.file, pos - sh.off, destOff, take);
      ChainedSnoc(pieces, p, 0, destOff);
      assert InShard(p, sh, off);
      assert take < remaining ==> EndsShard(p, shards, off);
      if AlignedShards(shards) && off % ALIGN == 0 { PageStep(sh, off, destOff); }
      pieces := pieces + [p];
      pos, destOff, remaining := pos + take, destOff + take, remaining - take;
      mid := sh.End();
    }
    assert shards[|shards|..] == [];
    forall total | Tiles(shards, 0, total) ensures total == mid && (destOff > 0 ==> pos <= total) {
      TilesOrder(shards, 0, total);
    }
    r := if remaining > 0 then Exceeds else Ok(pieces);
  }

  // ---- the jobs of FTWReader.read_into ----

  lemma {:induction false} ChainedJoin(a: seq<Piece>, b: seq<Piece>, from: nat, mid: nat, to: nat)
    requires Chained(a, from, mid) && Chained(b, mid, to)
    ensures Chained(a + b, from, to)
    decreases |a|
  {
    if a == [] {
      assert a + b == b;
    } else {
      ChainedJoin(a[1..], b, a[0].DestEnd(), mid, to);
      assert (a + b)[1..] == a[1..] + b;
    }
  }

  /** A job reads part of a piece whose end is rounded up to a page. */
  ghost predicate Within(j: Piece, p: Piece) {
    && j.file == p.file && p.fileOff <= j.fileOff && j.fileOff - p.fileOff == j.destOff - p.destOff
    && j.DestEnd() <= p.destOff + AlignUp(p.len)
  }

  /** What direct I/O demands of a read. */
  predicate DirectLegal(j: Piece) {
    j.fileOff % ALIGN == 0 && j.destOff % ALIGN == 0 && j.len % ALIGN == 0
  }

  /** The job at offset `c` of a piece. */
  function JobAt(p: Piece, chunk: nat, c: nat): Piece
    requires c < AlignUp(p.len)
  {
    Piece(p.file, p.fileOff + c, p.destOff + c, if chunk < AlignUp(p.len) - c then chunk else AlignUp(p.len) - c)
  }

  lemma JobAtLegal(p: Piece, chunk: nat, c: nat)
    requires c < AlignUp(p.len) && chunk % ALIGN == 0 && c % ALIGN == 0 && p.fileOff % ALIGN == 0 && p.destOff % ALIGN == 0
    ensures DirectLegal(JobAt(p, chunk, c)) && (c + chunk) % ALIGN == 0
  {
    SumAligned(p.fileOff, c);
    SumAligned(p.destOff, c);
    SumAligned(c, chunk);
    PageDifference(AlignUp(p.len), c);
  }

  lemma PageDifference(a: nat, b: nat)
    requires a % ALIGN == 0 && b % ALIGN == 0
    ensures (a - b) % ALIGN == 0
  {
  }

  ghost predicate OnPages(p: Piece) {
    p.fileOff % ALIGN == 0 && p.destOff % ALIGN == 0
  }

  /** Chunks are whole pages, or the piece fits one. */
  ghost predicate Even(p: Piece, chunk: nat) {
    chunk % ALIGN == 0 || AlignUp(p.len) <= chunk
  }

  ghost predicate AllLegal(jobs: seq<Piece>) {
    forall j :: j in jobs ==> DirectLegal(j)
  }

  /** The next job of an even piece is legal; the first one of an uneven piece is not. */
  lemma NextJob(p: Piece, chunk: nat, c: nat)
    requires c < AlignUp(p.len) && OnPages(p)
    requires c == 0 || (chunk % ALIGN == 0 && c % ALIGN == 0)
    ensures Even(p, chunk) ==> DirectLegal(JobAt(p, chunk, c)) && (c + chunk < AlignUp(p.len) ==> chunk % ALIGN == 0 && (c + chunk) % ALIGN == 0)
    ensures !Even(p, chunk) && c == 0 ==> !DirectLegal(JobAt(p, chunk, c))
  {
    if chunk % ALIGN == 0 { JobAtLegal(p, chunk, c); }
  }

  /** Both occur: chunks of 5000 bytes are legal on a piece of one page, and not on one of two. */
  lemma UnevenChunks(file: nat)
    ensures Even(Piece(file, 0, 0, ALIGN), 5000) && !Even(Piece(file, 0, 0, 2 * ALIGN), 5000)
    ensures DirectLegal(JobAt(Piece(file, 0, 0, ALIGN), 5000, 0)) && !DirectLegal(JobAt(Piece(file, 0, 0, 2 * ALIGN), 5000, 0))
  {
  }

  /** The jobs of one piece: `chunk` bytes at a time, the end rounded up. On a piece that starts on a page
      they are all legal for direct I/O exactly if chunks are whole pages or the piece fits one. */
  method CutPiece(p: Piece, chunk: nat) returns (jobs: seq<Piece>)
    requires chunk > 0 && p.len > 0
    ensures Chained(jobs, p.destOff, p.destOff + AlignUp(p.len))
    ensures forall j :: j in jobs ==> Within(j, p) && j.len <= chunk
    ensures OnPages(p) ==> (AllLegal(jobs) <==> Even(p, chunk))
  {
    jobs := [];
    ghost var paged, even := OnPages(p), Even(p, chunk);
    var rlen := AlignUp(p.len);
    var c: nat := 0;
    ghost var upTo: nat := 0;  // min(c, rlen)
    while c < rlen
      invariant upTo == (if c < rlen then c else rlen)
      invariant Chained(jobs, p.destOff, p.destOff + upTo)
      invariant forall j :: j in jobs ==> Within(j, p) && j.len <= chunk
      invariant paged && even ==> AllLegal(jobs) && (0 < c < rlen ==> chunk % ALIGN == 0 && c % ALIGN == 0)
      invariant paged && !even && c > 0 ==> !AllLegal(jobs)
      decreases rlen - c
    {
      var j := JobAt(p, chunk, c);
      ghost var before := jobs;
      if paged && (even || c == 0) { NextJob(p, chunk, c); }
      assert j in jobs + [j] && forall x :: x in before ==> x in before + [j];
      ChainedSnoc(jobs, j, p.destOff, p.destOff + c);
      jobs := jobs + [j];
      c := c + chunk;
      upTo := if c < rlen then c else rlen;
    }
  }

  lemma OnPage(at: nat, n: nat)
    requires at % ALIGN == 0
    ensures AlignUp(at) == at && AlignUp(at + n) == at + AlignUp(n)
  {
  }

  /** A job of one of the pieces, at most a chunk long. */
  ghost predicate GoodJob(j: Piece, pieces: seq<Piece>, chunk: nat) {
    (exists p :: p in pieces && Within(j, p)) && j.len <= chunk
  }

  ghost predicate AllGood(jobs: seq<Piece>, pieces: seq<Piece>, chunk: nat) {
    forall j :: j in jobs ==> GoodJob(j, pieces, chunk)
  }

  lemma MoreJobs(jobs: seq<Piece>, js: seq<Piece>, p: Piece, pieces: seq<Piece>, chunk: nat)
    requires AllGood(jobs, pieces, chunk) && p in pieces && forall j :: j in js ==> Within(j, p) && j.len <= chunk
    ensures AllGood(jobs + js, pieces, chunk)
  {
  }

  /** Every piece is even. */
  ghost predicate AllEven(pieces: seq<Piece>, chunk: nat) {
    forall p :: p in pieces ==> Even(p, chunk)
  }

  lemma MorePieces(pieces: seq<Piece>, k: nat, chunk: nat, jobs: seq<Piece>, js: seq<Piece>)
    requires k < |pieces| && (AllLegal(jobs) <==> AllEven(pieces[..k], chunk)) && (AllLegal(js) <==> Even(pieces[k], chunk))
    ensures AllLegal(jobs + js) <==> AllEven(pieces[..k + 1], chunk)
  {
    assert pieces[..k + 1] == pieces[..k] + [pieces[k]];
    if AllLegal(jobs + js) {
      forall j | j in jobs ensures DirectLegal(j) { assert j in jobs + js; }
      forall j | j in js ensures DirectLegal(j) { assert j in jobs + js; }
    }
    if AllEven(pieces[..k + 1], chunk) {
      assert pieces[k] in pieces[..k + 1];
      forall p | p in pieces[..k] ensures Even(p, chunk) { assert p in pieces[..k + 1]; }
    }
  }

  lemma NextPiece(pieces: seq<Piece>, k: nat, at: nat, n: nat)
    requires k < |pieces| && Chained(pieces[k..], at, n)
    ensures pieces[k].destOff == at && pieces[k].len > 0 && Chained(pieces[k + 1..], pieces[k].DestEnd(), n)
  {
    assert pieces[k..][0] == pieces[k] && pieces[k..][1..] == pieces[k + 1..];
  }

  lemma JoinJobs(jobs: seq<Piece>, js: seq<Piece>, at: nat, n: nat)
    requires at % ALIGN == 0 && Chained(jobs, 0, AlignUp(at)) && Chained(js, at, at + AlignUp(n))
    ensures Chained(jobs + js, 0, AlignUp(at + n))
  {
    OnPage(at, n);
    ChainedJoin(jobs, js, 0, at, at + AlignUp(n));
  }

  /** The first `k` pieces are cut, up to `at` of the destination. */
  ghost predicate CutSoFar(jobs: seq<Piece>, pieces: seq<Piece>, k: nat, at: nat, n: nat, chunk: nat)
    requires k <= |pieces|
  {
    && Chained(pieces[k..], at, n) && Chained(jobs, 0, AlignUp(at))
    && AllGood(jobs, pieces, chunk) && (Paged(pieces) ==> (AllLegal(jobs) <==> AllEven(pieces[..k], chunk)))
  }

  lemma CutStep(jobs: seq<Piece>, js: seq<Piece>, pieces: seq<Piece>, k: nat, at: nat, n: nat, chunk: nat)
    requires k < |pieces| && CutSoFar(jobs, pieces, k, at, n, chunk) && pieces[k].destOff % ALIGN == 0
    requires Chained(js, pieces[k].destOff, pieces[k].destOff + AlignUp(pieces[k].len))
    requires forall j :: j in js ==> Within(j, pieces[k]) && j.len <= chunk
    requires OnPages(pieces[k]) ==> (AllLegal(js) <==> Even(pieces[k], chunk))
    ensures CutSoFar(jobs + js, pieces, k + 1, pieces[k].DestEnd(), n, chunk)
  {
    NextPiece(pieces, k, at, n);
    JoinJobs(jobs, js, at, pieces[k].len);
    if Paged(pieces) {
      assert OnPages(pieces[k]);
      MorePieces(pieces, k, chunk, jobs, js);
    }
    MoreJobs(jobs, js, pieces[k], pieces, chunk);
  }

  /** In the destination every piece starts on a page. */
  predicate Smooth(pieces: seq<Piece>) {
    forall k :: 0 <= k < |pieces| ==> pieces[k].destOff % ALIGN == 0
  }

  /** All jobs, in piece order. Smooth pieces give jobs that fill the padded destination, each byte
      once; where they start on pages of their files too, all jobs are legal for direct I/O exactly if
      every piece is even. */
  method CutJobs(pieces: seq<Piece>, chunk: nat, ghost n: nat) returns (jobs: seq<Piece>)
    requires chunk > 0 && Chained(pieces, 0, n) && Smooth(pieces)
    ensures Chained(jobs, 0, AlignUp(n)) && AllGood(jobs, pieces, chunk)
    ensures Paged(pieces) ==> (AllLegal(jobs) <==> AllEven(pieces, chunk))
  {
    jobs := [];
    ghost var at: nat := 0;
    assert pieces[0..] == pieces;
    for k := 0 to |pieces|
      invariant CutSoFar(jobs, pieces, k, at, n, chunk)
    {
      NextPiece(pieces, k, at, n);
      var js := CutPiece(pieces[k], chunk);
      CutStep(jobs, js, pieces, k, at, n, chunk);
      jobs := jobs + js;
      at := pieces[k].DestEnd();
    }
    assert pieces[..|pieces|] == pieces;
  }

  // ---- running the jobs ----

  ghost predicate Readable(files: Files, j: Piece) {
    j.file in files && j.fileOff + j.len <= |files[j.file]|
  }

  /** The read can be done: the file is long enough, and a strict system is given whole pages. */
  ghost predicate CanRead(files: Files, j: Piece, how: Backend) {
    Readable(files, j) && (how == Direct(true) ==> DirectLegal(j))
  }

  /** The job's stretch of the destination holds its stretch of the file. */
  ghost predicate Loaded(dest: Bytes, files: Files, j: Piece) {
    && Readable(files, j) && j.DestEnd() <= |dest|
    && dest[j.destOff..j.DestEnd()] == files[j.file][j.fileOff..j.fileOff + j.len]
  }

  /** Outside [from, to) the two destinations agree. */
  ghost predicate SameOutside(a: Bytes, b: Bytes, from: nat, to: nat) {
    |a| == |b| && forall d :: 0 <= d < |a| && !(from <= d < to) ==> a[d] == b[d]
  }

  /** The first `done` bytes of the job are there. */
  ghost predicate Part(dest: Bytes, data: Bytes, j: Piece, done: nat) {
    && done <= j.len && j.DestEnd() <= |dest| && (done > 0 ==> j.fileOff + done <= |data|)
    && forall x :: j.destOff <= x < j.destOff + done ==> dest[x] == data[x - j.destOff + j.fileOff]
  }

  /** One `preadv` for a job, which may come back short; zero at the end of the file. */
  method PreadSome(dest: array<Byte>, data: Bytes, j: Piece, done: nat) returns (n: nat)
    requires done < j.len && Part(dest[..], data, j, done)
    modifies dest
    ensures n == 0 <==> |data| <= j.fileOff + done
    ensures Part(dest[..], data, j, done + n)
    ensures SameOutside(dest[..], old(dest[..]), j.destOff + done, j.DestEnd())
  {
    if |data| <= j.fileOff + done { return 0; }
    var most := if j.len - done < |data| - j.fileOff - done then j.len - done else |data| - j.fileOff - done;
    n :| 0 < n <= most;
    forall x | j.destOff + done <= x < j.destOff + done + n {
      dest[x] := data[x - j.destOff + j.fileOff];
    }
  }

  /** `_pread_into`: reads until the job is full; false at the end of the file. */
  method PreadInto(dest: array<Byte>, data: Bytes, j: Piece) returns (ok: bool)
    requires j.DestEnd() <= dest.Length
    modifies dest
    ensures ok <==> j.len == 0 || j.fileOff + j.len <= |data|
    ensures ok ==> Part(dest[..], data, j, j.len)
    ensures SameOutside(dest[..], old(dest[..]), j.destOff, j.DestEnd())
  {
    var done: nat := 0;
    while done < j.len
      invariant Part(dest[..], data, j, done)
      invariant SameOutside(dest[..], old(dest[..]), j.destOff, j.DestEnd())
    {
      var n := PreadSome(dest, data, j, done);
      if n == 0 { return false; }
      done := done + n;
    }
    ok := true;
  }

  /** The fallback: one copy out of a mapping of the file, whose length is checked first. */
  method CopyMapped(dest: array<Byte>, data: Bytes, j: Piece) returns (ok: bool)
    requires j.DestEnd() <= dest.Length
    modifies dest
    ensures ok <==> j.fileOff + j.len <= |data|
    ensures ok ==> Part(dest[..], data, j, j.len)
    ensures SameOutside(dest[..], old(dest[..]), j.destOff, j.DestEnd())
  {
    if j.fileOff + j.len > |data| { return false; }
    forall d | 0 <= d < j.len {
      dest[j.destOff + d] := data[j.fileOff + d];
    }
    ok := true;
  }

  /** The next read of a job through either backend; zero when it fails. */
  method ReadSome(dest: array<Byte>, data: Bytes, j: Piece, done: nat, how: Backend) returns (n: nat)
    requires done < j.len && Part(dest[..], data, j, done) && (how.Mapped? ==> done == 0)
    modifies dest
    ensures n == 0 ==> |data| < j.fileOff + j.len || (how == Direct(true) && !DirectLegal(j))
    ensures n > 0 && how == Direct(true) ==> DirectLegal(j)
    ensures Part(dest[..], data, j, done + n) && (how.Mapped? && n > 0 ==> n == j.len)
    ensures SameOutside(dest[..], old(dest[..]), j.destOff, j.DestEnd())
  {
    if how.Mapped? {
      var ok := CopyMapped(dest, data, j);
      n := if ok then j.len else 0;
    } else if how.strict && !DirectLegal(j) {
      n := 0;
    } else {
      n := PreadSome(dest, data, j, done);
    }
  }

  lemma PartFrame(a: Bytes, b: Bytes, data: Bytes, j: Piece, done: nat, from: nat, to: nat)
    requires Part(a, data, j, done) && SameOutside(b, a, from, to) && (j.DestEnd() <= from || to <= j.destOff)
    ensures Part(b, data, j, done)
  {
  }

  lemma PartIsLoaded(dest: Bytes, files: Files, j: Piece)
    requires j.file in files && j.len > 0 && Part(dest, files[j.file], j, j.len)
    ensures Loaded(dest, files, j)
  {
    var a, b := dest[j.destOff..j.DestEnd()], files[j.file][j.fileOff..j.fileOff + j.len];
    forall x | 0 <= x < j.len ensures a[x] == b[x] { assert dest[j.destOff + x] == a[x]; }
    assert a == b;
  }

  /** Bytes still to be read. */
  ghost function Left(jobs: seq<Piece>, done: seq<nat>): nat
    requires |done| == |jobs|
  {
    if jobs == [] then 0
    else (if done[0] < jobs[0].len then jobs[0].len - done[0] else 0) + Left(jobs[1..], done[1..])
  }

  lemma {:induction false} LeftShrinks(jobs: seq<Piece>, done: seq<nat>, i: nat, n: nat)
    requires |done| == |jobs| && i < |jobs| && done[i] + n <= jobs[i].len
    ensures Left(jobs, done[i := done[i] + n]) == Left(jobs, done) - n
    decreases i
  {
    if i == 0 {
      assert done[0 := done[0] + n][1..] == done[1..];
    } else {
      LeftShrinks(jobs[1..], done[1..], i - 1, n);
      assert done[i := done[i] + n][1..] == done[1..][i - 1 := done[1..][i - 1] + n];
    }
  }

  /** Where one job stands: it goes on, has failed, or is full. */
  ghost predicate JobOk(dest: Bytes, files: Files, j: Piece, done: nat, active: bool, failed: bool, how: Backend) {
    && j.len > 0 && j.file in files && Part(dest, files[j.file], j, done)
    && (done > 0 && how == Direct(true) ==> DirectLegal(j))
    && (if active then done < j.len && !failed && (how.Mapped? ==> done == 0)
        else if failed then !CanRead(files, j, how) else done == j.len)
  }

  ghost predicate PoolOk(dest: Bytes, files: Files, jobs: seq<Piece>, done: seq<nat>, active: set<nat>, failed: set<nat>, how: Backend) {
    && |done| == |jobs| && (forall i :: i in active || i in failed ==> i < |jobs|)
    && forall i :: 0 <= i < |jobs| ==> JobOk(dest, files, jobs[i], done[i], i in active, i in failed, how)
  }

  /** What one read makes of its job. */
  ghost predicate Stepped(files: Files, j: Piece, done: nat, n: nat, active: bool, failed: bool, how: Backend) {
    && (failed <==> n == 0) && (n == 0 ==> !CanRead(files, j, how)) && (how.Mapped? && n > 0 ==> n == j.len)
    && (n > 0 && how == Direct(true) ==> DirectLegal(j))
    && (active <==> n > 0 && done + n < j.len)
  }

  /** One read of one job leaves all others as they are. */
  lemma PoolStep(was: Bytes, dest: Bytes, files: Files, jobs: seq<Piece>, done: seq<nat>, active: set<nat>, failed: set<nat>, how: Backend,
      i: nat, n: nat, size: nat, active': set<nat>, failed': set<nat>)
    requires Chained(jobs, 0, size) && PoolOk(was, files, jobs, done, active, failed, how) && i in active
    requires SameOutside(dest, was, jobs[i].destOff, jobs[i].DestEnd())
    requires JobOk(was, files, jobs[i], done[i], true, false, how) && Part(dest, files[jobs[i].file], jobs[i], done[i] + n)
    requires Stepped(files, jobs[i], done[i], n, i in active', i in failed', how)
    requires active' - {i} == active - {i} && failed' - {i} == failed - {i}
    ensures PoolOk(dest, files, jobs, done[i := done[i] + n], active', failed', how)
  {
    ChainedOrder(jobs, 0, size);
    var now := done[i := done[i] + n];
    forall k | 0 <= k < |jobs| ensures JobOk(dest, files, jobs[k], now[k], k in active', k in failed', how) {
      if k != i {
        assert k in active' <==> k in active' - {i};
        assert k in active <==> k in active - {i};
        assert k in failed' <==> k in failed' - {i};
        assert k in failed <==> k in failed - {i};
        assert JobOk(was, files, jobs[k], done[k], k in active, k in failed, how);
        PartFrame(was, dest, files[jobs[k].file], jobs[k], done[k], jobs[i].destOff, jobs[i].DestEnd());
      }
    }
    forall k | k in active' || k in failed' ensures k < |jobs| {
      if k != i { assert k in active - {i} || k in failed - {i}; }
    }
  }

  /** Every file is opened or mapped before any job runs. */
  method AllThere(files: Files, jobs: seq<Piece>) returns (there: bool)
    ensures there <==> forall i :: 0 <= i < |jobs| ==> jobs[i].file in files
  {
    for k := 0 to |jobs|
      invariant forall i :: 0 <= i < k ==> jobs[i].file in files
    {
      if jobs[k].file !in files { return false; }
    }
    there := true;
  }

  /** All jobs at once, on as many threads as one likes: whichever is ready does its next read. */
  method RunJobs(dest: array<Byte>, files: Files, jobs: seq<Piece>, how: Backend, ghost n: nat) returns (ok: bool)
    requires Chained(jobs, 0, n) && n <= dest.Length
    modifies dest
    ensures ok <==> forall i :: 0 <= i < |jobs| ==> CanRead(files, jobs[i], how)
    ensures ok ==> forall i :: 0 <= i < |jobs| ==> Loaded(dest[..], files, jobs[i])
    ensures SameOutside(dest[..], old(dest[..]), 0, n)
  {
    ok := AllThere(files, jobs);
    if !ok { return; }
    var done: seq<nat> := seq(|jobs|, i => 0);
    var active: set<nat>, failed: set<nat> := set i {:trigger jobs[i]} | 0 <= i < |jobs|, {};
    PoolStarts(dest[..], files, jobs, done, active, how, n);
    while active != {}
      invariant PoolOk(dest[..], files, jobs, done, active, failed, how)
      invariant SameOutside(dest[..], old(dest[..]), 0, n)
      decreases Left(jobs, done) + |active|
    {
      var i := AnyOf(active);
      var got := OneRead(dest, files, jobs, i, done, active, failed, how, n);
      LeftShrinks(jobs, done, i, got);
      if got == 0 { failed := failed + {i}; }
      if got == 0 || done[i] + got == jobs[i].len { active := active - {i}; }
      done := done[i := done[i] + got];
    }
    PoolEnds(dest[..], files, jobs, done, failed, how);
    ok := failed == {};
  }

  /** The next read of job `i`. */
  method OneRead(dest: array<Byte>, files: Files, jobs: seq<Piece>, i: nat, done: seq<nat>, ghost active: set<nat>,
      ghost failed: set<nat>, how: Backend, ghost n: nat) returns (got: nat)
    requires Chained(jobs, 0, n) && n <= dest.Length && i in active
    requires PoolOk(dest[..], files, jobs, done, active, failed, how)
    modifies dest
    ensures done[i] + got <= jobs[i].len && SameOutside(dest[..], old(dest[..]), 0, n)
    ensures PoolOk(dest[..], files, jobs, done[i := done[i] + got],
              if got == 0 || done[i] + got == jobs[i].len then active - {i} else active, if got == 0 then failed + {i} else failed, how)
  {
    ghost var was := dest[..];
    assert JobOk(was, files, jobs[i], done[i], true, i in failed, how);
    got := ReadSome(dest, files[jobs[i].file], jobs[i], done[i], how);
    PoolStep(was, dest[..], files, jobs, done, active, failed, how, i, got, n,
      if got == 0 || done[i] + got == jobs[i].len then active - {i} else active, if got == 0 then failed + {i} else failed);
    ChainedOrder(jobs, 0, n);
    assert jobs[i] in jobs;
  }

  lemma PoolStarts(dest: Bytes, files: Files, jobs: seq<Piece>, done: seq<nat>, active: set<nat>, how: Backend, n: nat)
    requires Chained(jobs, 0, n) && n <= |dest| && forall i :: 0 <= i < |jobs| ==> jobs[i].file in files
    requires done == seq(|jobs|, i => 0) && forall i :: i in active <==> 0 <= i < |jobs|
    ensures PoolOk(dest, files, jobs, done, active, {}, how)
  {
    ChainedOrder(jobs, 0, n);
    forall i | 0 <= i < |jobs| ensures JobOk(dest, files, jobs[i], done[i], i in active, false, how) {
      ChainedNonempty(jobs, 0, n, i);
      assert jobs[i] in jobs;
    }
  }

  lemma PoolEnds(dest: Bytes, files: Files, jobs: seq<Piece>, done: seq<nat>, failed: set<nat>, how: Backend)
    requires PoolOk(dest, files, jobs, done, {}, failed, how)
    ensures failed == {} <==> forall i :: 0 <= i < |jobs| ==> CanRead(files, jobs[i], how)
    ensures failed == {} ==> forall i :: 0 <= i < |jobs| ==> Loaded(dest, files, jobs[i])
  {
    forall i | 0 <= i < |jobs| ensures i in failed <==> !CanRead(files, jobs[i], how) {
      assert JobOk(dest, files, jobs[i], done[i], false, i in failed, how);
    }
    if failed == {} {
      forall i | 0 <= i < |jobs| ensures Loaded(dest, files, jobs[i]) {
        assert JobOk(dest, files, jobs[i], done[i], false, false, how);
        PartIsLoaded(dest, files, jobs[i]);
      }
    } else {
      var i :| i in failed;
      assert i < |jobs|;
    }
  }

  lemma {:induction false} ChainedNonempty(pieces: seq<Piece>, from: nat, to: nat, k: nat)
    requires Chained(pieces, from, to) && k < |pieces|
    ensures pieces[k].len > 0
    decreases k
  {
    if k > 0 { ChainedNonempty(pieces[1..], pieces[0].DestEnd(), to, k - 1); }
  }

  // ---- FTWReader.read_into ----

  /** Destination byte `d` is the byte some shard's file holds for region offset `off + d`. */
  ghost predicate FromShard(dest: Bytes, files: Files, shards: seq<Shard>, off: nat, d: nat) {
    exists s :: s in shards && s.off <= off + d < s.End() && HasByte(dest, files, s, off, d)
  }

  ghost predicate HasByte(dest: Bytes, files: Files, s: Shard, off: nat, d: nat)
    requires s.off <= off + d
  {
    && s.file in files && off + d - s.off < |files[s.file]| && d < |dest|
    && dest[d] == files[s.file][off + d - s.off]
  }

  /** Shards and the range lie on pages. */
  ghost predicate OnGrid(shards: seq<Shard>, off: nat) {
    AlignedShards(shards) && off % ALIGN == 0
  }

  /** On the grid a job stays inside the shard of its piece, rounded end included. */
  lemma JobShard(j: Piece, pieces: seq<Piece>, chunk: nat, shards: seq<Shard>, off: nat) returns (s: Shard)
    requires GoodJob(j, pieces, chunk) && Paged(pieces) && AllIn(pieces, shards, off) && AlignedShards(shards)
    ensures s in shards && s.file == j.file && s.off + j.fileOff == off + j.destOff && j.fileOff + j.len <= s.nbytes
  {
    var p :| p in pieces && Within(j, p);
    s :| s in shards && InShard(p, s, off);
    OnPage(p.fileOff, p.len);
    AlignUpLeast(p.fileOff + p.len, s.nbytes);
  }

  /** So does, wherever the shards lie, one that can be read from a complete shard. */
  lemma ReadJobShard(files: Files, j: Piece, pieces: seq<Piece>, chunk: nat, shards: seq<Shard>, off: nat) returns (s: Shard)
    requires GoodJob(j, pieces, chunk) && AllIn(pieces, shards, off) && Complete(files, shards) && Readable(files, j)
    ensures s in shards && s.file == j.file && s.off + j.fileOff == off + j.destOff && j.fileOff + j.len <= s.nbytes
  {
    var p :| p in pieces && Within(j, p);
    s :| s in shards && InShard(p, s, off);
  }

  /** Whole-page chunks, or one that takes the whole range, suit a strict system; the others take any. */
  predicate Suits(how: Backend, chunk: nat, n: nat) {
    how == Direct(true) ==> chunk % ALIGN == 0 || AlignUp(n) <= chunk
  }

  lemma SuitsAll(pieces: seq<Piece>, how: Backend, chunk: nat, n: nat)
    requires Chained(pieces, 0, n) && Suits(how, chunk, n) && how == Direct(true)
    ensures AllEven(pieces, chunk)
  {
    ChainedOrder(pieces, 0, n);
    forall p | p in pieces ensures Even(p, chunk) { AlignUpMono(p.len, n); }
  }

  lemma AlignUpMono(a: nat, b: nat)
    requires a <= b
    ensures AlignUp(a) <= AlignUp(b)
  {
    AlignUpLeast(a, AlignUp(b));
  }

  /** Jobs of complete shards on the grid can all be read. */
  lemma CompleteReadable(files: Files, jobs: seq<Piece>, pieces: seq<Piece>, chunk: nat, shards: seq<Shard>, off: nat, n: nat, how: Backend)
    requires AllGood(jobs, pieces, chunk) && Paged(pieces) && AllIn(pieces, shards, off) && Chained(pieces, 0, n)
    requires AllLegal(jobs) <==> AllEven(pieces, chunk)
    requires AlignedShards(shards) && Complete(files, shards) && Suits(how, chunk, n)
    ensures forall i :: 0 <= i < |jobs| ==> CanRead(files, jobs[i], how)
  {
    if how == Direct(true) { SuitsAll(pieces, how, chunk, n); }
    forall i | 0 <= i < |jobs| ensures CanRead(files, jobs[i], how) {
      var s := JobShard(jobs[i], pieces, chunk, shards, off);
    }
  }

  /** Once every job has run, every byte of the padded destination is the right one. */
  lemma LoadedBytes(dest: Bytes, files: Files, jobs: seq<Piece>, pieces: seq<Piece>, chunk: nat, shards: seq<Shard>, off: nat, n: nat)
    requires Chained(jobs, 0, n) && forall i :: 0 <= i < |jobs| ==> Loaded(dest, files, jobs[i])
    requires AllGood(jobs, pieces, chunk) && AllIn(pieces, shards, off)
    requires (Paged(pieces) && AlignedShards(shards)) || Complete(files, shards)
    ensures forall d :: 0 <= d < n ==> FromShard(dest, files, shards, off, d)
  {
    forall d | 0 <= d < n ensures FromShard(dest, files, shards, off, d) {
      var i := ChainedCovers(jobs, 0, n, d);
      var j := jobs[i];
      var s;
      if Complete(files, shards) {
        s := ReadJobShard(files, j, pieces, chunk, shards, off);
      } else {
        s := JobShard(j, pieces, chunk, shards, off);
      }
      assert dest[d] == dest[j.destOff..j.DestEnd()][d - j.destOff];
      assert HasByte(dest, files, s, off, d);
    }
  }

  /** A piece whose rounded end is not in its file. */
  ghost predicate EndMissing(p: Piece, files: Files) {
    p.file in files && p.fileOff + AlignUp(p.len) > |files[p.file]|
  }

  /** Where a shard ends off the grid inside the range, its complete file has not the rounded end of the
      piece. */
  lemma UnevenMissing(files: Files, pieces: seq<Piece>, shards: seq<Shard>, off: nat, n: nat) returns (k: nat)
    requires Chained(pieces, 0, n) && EndShards(pieces, |pieces| - 1, shards, off) && Complete(files, shards)
    requires !Smooth(pieces)
    ensures k < |pieces| && EndMissing(pieces[k], files)
  {
    k := FirstUneven(pieces, 0, n);
    assert EndsShard(pieces[k], shards, off);
    var s :| s in shards && InShard(pieces[k], s, off) && pieces[k].fileOff + pieces[k].len == s.nbytes;
    assert AlignUp(pieces[k].len) > pieces[k].len;
  }

  /** One of the pieces in front of the last is no whole number of pages. */
  lemma {:induction false} FirstUneven(pieces: seq<Piece>, from: nat, to: nat) returns (k: nat)
    requires Chained(pieces, from, to) && from % ALIGN == 0 && !Smooth(pieces)
    ensures k + 1 < |pieces| && pieces[k].len % ALIGN != 0
    decreases |pieces|
  {
    var rest := pieces[1..];
    assert pieces[0].destOff == from;
    if pieces[0].len % ALIGN != 0 {
      var i :| 0 <= i < |pieces| && pieces[i].destOff % ALIGN != 0;
      assert i > 0;
      k := 0;
    } else {
      SumAligned(from, pieces[0].len);
      forall i | 0 <= i < |pieces| && pieces[i].destOff % ALIGN != 0 ensures 0 < i && rest[i - 1].destOff % ALIGN != 0 {
      }
      k := FirstUneven(rest, pieces[0].DestEnd(), to);
      k := k + 1;
    }
  }

  /** What other jobs have read before one of them fails. */
  method Disturb(dest: array<Byte>)
    modifies dest
  {
    for d := 0 to dest.Length {
      if * { dest[d] := *; }
    }
  }

  /** MAIN: every byte of the padded range is one that some shard's file holds for its region offset, or
      there is an error. On shards that tile the region there is never a `Gap`, and `Exceeds` exactly when
      the range does not fit. On the page grid a read fails only when a shard file is missing or cut short,
      or when the chunks do not suit a strict system; off it, with complete files, never with other bytes
      than the shards'. */
  method ReadInto(dest: array<Byte>, files: Files, ix: Index, off: nat, nbytes: nat, chunk: nat, how: Backend)
    returns (r: Outcome<()>)
    requires chunk > 0 && AlignUp(nbytes) <= dest.Length
    requires OnGrid(SortShards(ix.shards), off) || Complete(files, SortShards(ix.shards))
    modifies dest
    ensures !r.BadBank?
    ensures Tiles(SortShards(ix.shards), 0, ix.totalBytes) ==>
      !r.Gap? && (r.Exceeds? <==> nbytes > 0 && off + nbytes > ix.totalBytes)
    ensures r.Failed? && OnGrid(SortShards(ix.shards), off) ==> !Complete(files, SortShards(ix.shards)) || !Suits(how, chunk, nbytes)
    ensures r.Ok? ==> forall d :: 0 <= d < AlignUp(nbytes) ==> FromShard(dest[..], files, SortShards(ix.shards), off, d)
    ensures r.Ok? || OnGrid(SortShards(ix.shards), off) ==> SameOutside(dest[..], old(dest[..]), 0, AlignUp(nbytes))
    ensures r.Gap? || r.Exceeds? ==> dest[..] == old(dest[..])
  {
    var shards := SortShards(ix.shards);
    var p := Pieces(shards, off, nbytes);
    if !p.Ok? { return if p.Gap? then Gap else Exceeds; }
    if !Smooth(p.value) {
      ghost var k := UnevenMissing(files, p.value, shards, off, nbytes);
      Disturb(dest);
      return Failed;
    }
    var jobs := CutJobs(p.value, chunk, nbytes);
    var ok := RunJobs(dest, files, jobs, how, AlignUp(nbytes));
    if !ok {
      if OnGrid(shards, off) && Complete(files, shards) && Suits(how, chunk, nbytes) {
        CompleteReadable(files, jobs, p.value, chunk, shards, off, nbytes, how);
        assert false;
      }
      return Failed;
    }
    LoadedBytes(dest[..], files, jobs, p.value, chunk, shards, off, AlignUp(nbytes));
    r := Ok(());
  }

  /** In a complete checkpoint the byte for a region offset is the region's. */
  lemma FromShardIsRegion(dest: Bytes, files: Files, shards: seq<Shard>, total: nat, off: nat, n: nat)
    requires Complete(files, shards) && Tiles(shards, 0, total) && n <= |dest|
    requires forall d :: 0 <= d < n ==> FromShard(dest, files, shards, off, d)
    ensures n > 0 ==> off + n <= |Region(files, shards)|
    ensures n > 0 ==> dest[..n] == Region(files, shards)[off..off + n]
  {
    if n > 0 {
      var region := Region(files, shards);
      ByteIsRegion(dest, files, shards, total, off, n - 1);
      forall d | 0 <= d < n ensures dest[..n][d] == region[off..off + n][d] {
        ByteIsRegion(dest, files, shards, total, off, d);
      }
    }
  }

  lemma ByteIsRegion(dest: Bytes, files: Files, shards: seq<Shard>, total: nat, off: nat, d: nat)
    requires Complete(files, shards) && Tiles(shards, 0, total) && FromShard(dest, files, shards, off, d)
    ensures d < |dest| && off + d < |Region(files, shards)| && dest[d] == Region(files, shards)[off + d]
  {
    var s :| s in shards && s.off <= off + d < s.End() && HasByte(dest, files, s, off, d);
    var k :| 0 <= k < |shards| && shards[k] == s;
    RegionAtShard(files, shards, k, total);
    assert Region(files, shards)[s.off..s.End()][off + d - s.off] == Region(files, shards)[off + d];
  }

  /** Reading any entry of a safe checkpoint succeeds and gives that entry's bytes, whatever the
      chunk size, the backend and the order of the jobs. */
  method ReadEntry(dest: array<Byte>, files: Files, ix: Index, i: nat, chunk: nat, how: Backend) returns (r: Outcome<()>)
    requires Safe(files, ix) && i < |ix.tensors| && chunk > 0 && AlignUp(ix.tensors[i].nbytes) <= dest.Length
    modifies dest
    ensures Suits(how, chunk, ix.tensors[i].nbytes) ==> r.Ok?
    ensures r.Ok? ==> dest[..ix.tensors[i].nbytes] == Contents(files, ix)[i].data
    ensures !r.Ok? ==> r.Failed?
    ensures SameOutside(dest[..], old(dest[..]), 0, AlignUp(ix.tensors[i].nbytes))
  {
    var e := ix.tensors[i];
    assert EntryFits(e, ix.totalBytes);
    r := ReadInto(dest, files, ix, e.off, e.nbytes, chunk, how);
    if !r.Ok? { return; }
    EntryLoaded(dest[..], files, ix, i);
    assert dest[..][..e.nbytes] == dest[..e.nbytes];
  }

  lemma EntryLoaded(dest: Bytes, files: Files, ix: Index, i: nat)
    requires Safe(files, ix) && i < |ix.tensors| && ix.tensors[i].nbytes <= |dest|
    requires forall d :: 0 <= d < ix.tensors[i].nbytes ==> FromShard(dest, files, SortShards(ix.shards), ix.tensors[i].off, d)
    ensures dest[..ix.tensors[i].nbytes] == Contents(files, ix)[i].data
  {
    var e, shards := ix.tensors[i], SortShards(ix.shards);
    assert EntryFits(e, ix.totalBytes);
    FromShardIsRegion(dest, files, shards, ix.totalBytes, e.off, e.nbytes);
    RegionLength(files, shards, 0, ix.totalBytes);
    assert Contents(files, ix)[i] == Content(Region(files, shards), e);
  }
}
