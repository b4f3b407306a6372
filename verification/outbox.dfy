/** The accounting outbox: one JSON file per receipt, written to a temporary name and moved into
    place. A file's content is either a whole document or a torn write. */
module Outbox {
  import opened Options
  import opened Choice

  /** `body` stands for everything a receipt says besides its id and time. */
  datatype Receipt = Receipt(receiptId: string, createdAt: int, body: string)
  datatype Content = Doc(doc: Receipt) | Torn(bytes: string)
  type Dir = map<string, Content>

  datatype Result<T> = Ok(value: T) | InvalidId | OutboxError | OtherError

  // ---- names ----

  const JSON := ".json"

  predicate IsIdChar(c: char) {
    'A' <= c <= 'Z' || 'a' <= c <= 'z' || '0' <= c <= '9' || c == '.' || c == '_' || c == '-'
  }

  predicate ValidId(id: string) {
    1 <= |id| <= 200 && forall i :: 0 <= i < |id| ==> IsIdChar(id[i])
  }

  function Final(id: string): string { id + JSON }
  function Temp(id: string, hex: string): string { "." + id + "." + hex + ".tmp" }

  predicate IsJson(name: string) {
    |name| >= 5 && name[|name| - 5..] == JSON
  }

  function IdOf(name: string): string
    requires IsJson(name)
  {
    name[..|name| - 5]
  }

  lemma FinalIsJson(id: string)
    ensures IsJson(Final(id)) && IdOf(Final(id)) == id
  {
  }

  lemma JsonIsFinal(name: string)
    requires IsJson(name)
    ensures name == Final(IdOf(name))
  {
  }

  /** A temporary is never taken for a receipt. */
  lemma TempIsNotJson(id: string, hex: string)
    ensures !IsJson(Temp(id, hex))
  {
    var name := Temp(id, hex);
    assert |name| >= 6 && name[|name| - 5..][4] == name[|name| - 1] == 'p';
    assert JSON[4] == 'n';
  }

  // ---- what the directory says ----

  /** A document under its own id, which is what reading a receipt file demands. */
  predicate Whole(name: string, content: Content) {
    content.Doc? && ValidId(content.doc.receiptId) && name == Final(content.doc.receiptId)
  }

  /** A receipt file that cannot be read. */
  predicate Damaged(files: Dir, name: string) {
    IsJson(name) && name in files && !Whole(name, files[name])
  }

  /** Every receipt file is whole. */
  ghost predicate Clean(files: Dir) {
    forall name :: !Damaged(files, name)
  }

  /** The receipt stored under an id. */
  function Get(files: Dir, id: string): Option<Receipt> {
    if Final(id) in files && Whole(Final(id), files[Final(id)]) then Some(files[Final(id)].doc) else None
  }

  /** No receipt file is damaged, and none repaired. */
  ghost predicate Intact(a: Dir, b: Dir) {
    forall name :: Damaged(a, name) <==> Damaged(b, name)
  }

  ghost predicate Same(a: Dir, b: Dir) {
    Intact(a, b) && forall id :: Get(a, id) == Get(b, id)
  }

  /** `b` is `a` with `receipt` under its id, where there was nothing. */
  ghost predicate Added(a: Dir, b: Dir, receipt: Receipt) {
    Intact(a, b) && forall id :: Get(b, id) == if id == receipt.receiptId && Get(a, id).None? then Some(receipt) else Get(a, id)
  }

  /** `b` is `a` without the file of that id. */
  ghost predicate Removed(a: Dir, b: Dir, gone: string) {
    && (forall name :: Damaged(b, name) <==> Damaged(a, name) && name != Final(gone))
    && forall id :: Get(b, id) == if id == gone then None else Get(a, id)
  }

  lemma WholeIsStored(files: Dir, id: string)
    requires Final(id) in files && !Damaged(files, Final(id))
    ensures Get(files, id).Some? && Get(files, id).value.receiptId == id
  {
    FinalIsJson(id);
    FinalIsJson(files[Final(id)].doc.receiptId);
  }

  /** Writing any file that is no receipt changes nothing. */
  lemma OtherFile(files: Dir, name: string, content: Content)
    requires !IsJson(name)
    ensures Same(files[name := content], files) && Same(files - {name}, files)
  {
    forall id ensures Get(files[name := content], id) == Get(files, id) && Get(files - {name}, id) == Get(files, id) {
      FinalIsJson(id);
    }
  }

  /** Moving a complete document to its final name. */
  lemma MovedInto(files: Dir, temp: string, receipt: Receipt)
    requires !IsJson(temp) && ValidId(receipt.receiptId) && Final(receipt.receiptId) !in files
    ensures Added(files, (files - {temp})[Final(receipt.receiptId) := Doc(receipt)], receipt)
  {
    var moved := (files - {temp})[Final(receipt.receiptId) := Doc(receipt)];
    FinalIsJson(receipt.receiptId);
    forall id ensures Get(moved, id) == if id == receipt.receiptId && Get(files, id).None? then Some(receipt) else Get(files, id) {
      FinalIsJson(id);
    }
  }

  lemma Unlinked(files: Dir, id: string)
    ensures Removed(files, files - {Final(id)}, id)
  {
    forall other ensures Get(files - {Final(id)}, other) == if other == id then None else Get(files, other) {
      FinalIsJson(other);
      FinalIsJson(id);
    }
  }

  // ---- order of pending receipts ----

  /** Code point order. */
  predicate StrLess(a: string, b: string) {
    if b == "" then false
    else if a == "" then true
    else a[0] < b[0] || (a[0] == b[0] && StrLess(a[1..], b[1..]))
  }

  lemma {:induction false} StrTotal(a: string, b: string)
    ensures a == b || StrLess(a, b) || StrLess(b, a)
    ensures !(StrLess(a, b) && StrLess(b, a)) && !StrLess(a, a)
    decreases |a|
  {
    if a != "" && b != "" {
      StrTotal(a[1..], b[1..]);
      assert a == [a[0]] + a[1..] && b == [b[0]] + b[1..];
    }
    if a != "" { StrTotal(a[1..], a[1..]); }
  }

  lemma {:induction false} StrTrans(a: string, b: string, c: string)
    requires StrLess(a, b) && StrLess(b, c)
    ensures StrLess(a, c)
    decreases |a|
  {
    if a != "" && a[0] == b[0] == c[0] { StrTrans(a[1..], b[1..], c[1..]); }
  }

  /** By creation time, then by id. */
  predicate Before(a: Receipt, b: Receipt) {
    a.createdAt < b.createdAt || (a.createdAt == b.createdAt && StrLess(a.receiptId, b.receiptId))
  }

  ghost predicate Sorted(docs: seq<Receipt>) {
    forall i, j :: 0 <= i < j < |docs| ==> Before(docs[i], docs[j])
  }

  function Insert(docs: seq<Receipt>, r: Receipt): seq<Receipt> {
    if docs == [] || Before(r, docs[0]) then [r] + docs else [docs[0]] + Insert(docs[1..], r)
  }

  lemma {:induction false} InsertSorts(docs: seq<Receipt>, r: Receipt)
    requires Sorted(docs) && forall d :: d in docs ==> d.receiptId != r.receiptId
    ensures Sorted(Insert(docs, r)) && forall d :: d in Insert(docs, r) <==> d in docs || d == r
    decreases |docs|
  {
    if docs != [] {
      StrTotal(docs[0].receiptId, r.receiptId);
      if Before(r, docs[0]) {
        forall d | d in docs ensures Before(r, d) {
          if d != docs[0] { BeforeTrans(r, docs[0], d); }
        }
      } else {
        InsertSorts(docs[1..], r);
        assert docs == [docs[0]] + docs[1..];
        forall d | d in Insert(docs[1..], r) ensures Before(docs[0], d) {}
      }
    }
  }

  lemma BeforeTrans(a: Receipt, b: Receipt, c: Receipt)
    requires Before(a, b) && Before(b, c)
    ensures Before(a, c)
  {
    if a.createdAt == b.createdAt == c.createdAt { StrTrans(a.receiptId, b.receiptId, c.receiptId); }
  }

  /** Exactly the stored receipts, oldest first. */
  ghost predicate IsPending(docs: seq<Receipt>, files: Dir) {
    Sorted(docs) && forall d :: d in docs <==> Get(files, d.receiptId) == Some(d)
  }

  // ---- a map on which the first write wins ----

  type Receipts = map<string, Receipt>

  /** What a caller can tell: the receipts stored, and the ids under which a damaged file lies. */
  datatype Ledger = Ledger(stored: Receipts, broken: set<string>)

  /** One operation as its caller sees it; an interrupted persist is one that a crash cut off. */
  datatype Op =
    | Persisting(receipt: Receipt, stored: Result<Receipt>)
    | Interrupted(receipt: Receipt)
    | Acking(id: string, gone: Result<bool>)
    | Listing(docs: Result<seq<Receipt>>)

  /** The first document under an id stays until it is acknowledged. A damaged file lets nothing be stored
      under its id, and nothing be listed at all, until it is acknowledged. */
  ghost predicate Spec(m: Ledger, op: Op, m': Ledger) {
    match op
    case Persisting(receipt, stored) =>
      if stored.Ok? then m' == With(m, receipt) && m'.stored[receipt.receiptId] == stored.value && receipt.receiptId !in m.broken
      else m' == m
    case Interrupted(receipt) => m' == m || m' == With(m, receipt)
    case Acking(id, gone) =>
      if gone.Ok? then
        m' == Ledger(m.stored - {id}, m.broken - {id}) && (gone.value <==> id !in m.stored && id !in m.broken)
      else m' == m
    case Listing(docs) =>
      m' == m && (docs.Ok? ==>
        m.broken == {} && Sorted(docs.value) && forall d :: d in docs.value <==> d.receiptId in m.stored && m.stored[d.receiptId] == d)
  }

  function With(m: Ledger, receipt: Receipt): (r: Ledger)
    ensures receipt.receiptId in r.stored && r.broken == m.broken
  {
    if receipt.receiptId in m.stored then m else m.(stored := m.stored[receipt.receiptId := receipt])
  }

  /** What the operations do to the directory. */
  ghost predicate Step(a: Dir, op: Op, b: Dir) {
    match op
    case Persisting(receipt, stored) =>
      if stored.Ok? then Added(a, b, receipt) && Get(b, receipt.receiptId) == Some(stored.value) else Same(a, b)
    case Interrupted(receipt) => Same(a, b) || Added(a, b, receipt)
    case Acking(id, gone) =>
      if gone.Ok? then Removed(a, b, id) && (!gone.value <==> Final(id) in a) else Same(a, b)
    case Listing(docs) => b == a && (docs.Ok? ==> IsPending(docs.value, a) && Clean(a))
  }

  ghost predicate Refines(files: Dir, m: Ledger) {
    forall id :: Get(files, id) == (if id in m.stored then Some(m.stored[id]) else None) && (Damaged(files, Final(id)) <==> id in m.broken)
  }

  /** A stored receipt's file is not damaged. */
  lemma StoredIsWhole(files: Dir, id: string)
    requires Get(files, id).Some?
    ensures Final(id) in files && !Damaged(files, Final(id))
  {
  }

  lemma PersistRefines(a: Dir, receipt: Receipt, b: Dir, m: Ledger)
    requires Added(a, b, receipt) && Get(b, receipt.receiptId).Some? && Refines(a, m)
    ensures Refines(b, With(m, receipt)) && receipt.receiptId !in m.broken
  {
    StoredIsWhole(b, receipt.receiptId);
    forall id ensures Damaged(b, Final(id)) <==> id in m.broken { assert Damaged(a, Final(id)) <==> id in m.broken; }
  }

  lemma AckRefines(a: Dir, id: string, b: Dir, m: Ledger)
    requires Removed(a, b, id) && Refines(a, m)
    ensures Refines(b, Ledger(m.stored - {id}, m.broken - {id}))
    ensures Final(id) in a <==> id in m.stored || id in m.broken
  {
    FinalIsJson(id);
    forall other ensures Damaged(b, Final(other)) <==> other in m.broken - {id} {
      FinalIsJson(other);
      assert Damaged(a, Final(other)) <==> other in m.broken;
    }
    if Final(id) in a && !Damaged(a, Final(id)) { WholeIsStored(a, id); }
  }

  lemma ListRefines(a: Dir, docs: seq<Receipt>, m: Ledger)
    requires IsPending(docs, a) && Clean(a) && Refines(a, m)
    ensures m.broken == {} && forall d :: d in docs <==> d.receiptId in m.stored && m.stored[d.receiptId] == d
  {
    forall id ensures id !in m.broken { assert !Damaged(a, Final(id)); }
    forall d ensures d in docs <==> d.receiptId in m.stored && m.stored[d.receiptId] == d {
      assert Get(a, d.receiptId) == if d.receiptId in m.stored then Some(m.stored[d.receiptId]) else None;
    }
  }

  /** A persist that was cut off before it stored anything, or behind that. */
  lemma InterruptedRefines(a: Dir, receipt: Receipt, b: Dir, m: Ledger) returns (m': Ledger)
    requires Step(a, Interrupted(receipt), b) && Refines(a, m)
    ensures Spec(m, Interrupted(receipt), m') && Refines(b, m')
  {
    m' := m;
    if Same(a, b) {
      SameRefines(a, b, m);
    } else if Get(b, receipt.receiptId).Some? {
      PersistRefines(a, receipt, b, m);
      m' := With(m, receipt);
    }
  }

  lemma SameRefines(a: Dir, b: Dir, m: Ledger)
    requires Same(a, b) && Refines(a, m)
    ensures Refines(b, m)
  {
    forall id ensures Damaged(b, Final(id)) <==> id in m.broken { assert Damaged(a, Final(id)) <==> id in m.broken; }
  }

  lemma StepRefines(a: Dir, op: Op, b: Dir, m: Ledger) returns (m': Ledger)
    requires Step(a, op, b) && Refines(a, m)
    ensures Spec(m, op, m') && Refines(b, m')
  {
    m' := m;
    match op
    case Persisting(receipt, stored) =>
      if stored.Ok? {
        PersistRefines(a, receipt, b, m);
        m' := With(m, receipt);
      } else {
        SameRefines(a, b, m);
      }
    case Interrupted(receipt) => m' := InterruptedRefines(a, receipt, b, m);
    case Acking(id, gone) =>
      if gone.Ok? {
        AckRefines(a, id, b, m);
        m' := Ledger(m.stored - {id}, m.broken - {id});
      } else {
        SameRefines(a, b, m);
      }
    case Listing(docs) =>
      if docs.Ok? { ListRefines(a, docs.value, m); }
  }

  /** A history of the directory: each operation leads from one state to the next. */
  ghost predicate History(states: seq<Dir>, ops: seq<Op>) {
    |states| == |ops| + 1 && forall i :: 0 <= i < |ops| ==> Step(states[i], ops[i], states[i + 1])
  }

  /** MAIN: over any sequence of persists, acknowledgements, listings and crashes, the directory is that
      ledger: each state is one of the ledger's, and each answer is the ledger's. */
  lemma {:induction false} RunRefines(states: seq<Dir>, ops: seq<Op>, m: Ledger) returns (ms: seq<Ledger>)
    requires History(states, ops) && Refines(states[0], m)
    ensures Follows(states, ops, ms) && ms[0] == m
    decreases |ops|
  {
    if ops == [] {
      ms := [m];
    } else {
      var n := |ops| - 1;
      HistoryPrefix(states, ops);
      ms := RunRefines(states[..n + 1], ops[..n], m);
      assert Refines(states[..n + 1][n], ms[n]) && Step(states[n], ops[n], states[n + 1]);
      var last := StepRefines(states[n], ops[n], states[n + 1], ms[n]);
      FollowsSnoc(states, ops, ms, last);
      ms := ms + [last];
    }
  }

  /** The ledgers, one for each state, go the same way. */
  ghost predicate Follows(states: seq<Dir>, ops: seq<Op>, ms: seq<Ledger>) {
    && |ms| == |states| == |ops| + 1
    && (forall i :: 0 <= i < |states| ==> Refines(states[i], ms[i]))
    && IsRun(ms, ops)
  }

  ghost predicate IsRun(ms: seq<Ledger>, ops: seq<Op>) {
    |ms| == |ops| + 1 && forall i :: 0 <= i < |ops| ==> Spec(ms[i], ops[i], ms[i + 1])
  }

  lemma HistoryPrefix(states: seq<Dir>, ops: seq<Op>)
    requires History(states, ops) && ops != []
    ensures History(states[..|ops|], ops[..|ops| - 1])
  {
    var n := |ops| - 1;
    forall i | 0 <= i < n ensures Step(states[..n + 1][i], ops[..n][i], states[..n + 1][i + 1]) {
      assert Step(states[i], ops[i], states[i + 1]);
    }
  }

  lemma FollowsSnoc(states: seq<Dir>, ops: seq<Op>, ms: seq<Ledger>, last: Ledger)
    requires |states| == |ops| + 1 && ops != [] && Follows(states[..|ops|], ops[..|ops| - 1], ms)
    requires Refines(states[|ops|], last) && Spec(ms[|ops| - 1], ops[|ops| - 1], last)
    ensures Follows(states, ops, ms + [last])
  {
    var n := |ops| - 1;
    forall i | 0 <= i < |states| ensures Refines(states[i], (ms + [last])[i]) {
      if i <= n { assert Refines(states[..n + 1][i], ms[i]); }
    }
    IsRunSnoc(ms, ops, last);
  }

  lemma IsRunSnoc(ms: seq<Ledger>, ops: seq<Op>, last: Ledger)
    requires ops != [] && IsRun(ms, ops[..|ops| - 1]) && Spec(ms[|ops| - 1], ops[|ops| - 1], last)
    ensures IsRun(ms + [last], ops)
  {
    var n := |ops| - 1;
    forall i | 0 <= i < |ops| ensures Spec((ms + [last])[i], ops[i], (ms + [last])[i + 1]) {
      if i < n { assert Spec(ms[i], ops[..n][i], ms[i + 1]); }
    }
  }

  /** MAIN: a document, once stored, stays the same and is what every later persist of its id returns, until
      it is acknowledged. */
  lemma {:induction false} FirstWriteStays(ms: seq<Ledger>, ops: seq<Op>, i: nat, j: nat, id: string)
    requires IsRun(ms, ops)
    requires i <= j < |ms| && id in ms[i].stored
    requires forall k :: i <= k < j ==> !(ops[k].Acking? && ops[k].id == id && ops[k].gone.Ok?)
    ensures id in ms[j].stored && ms[j].stored[id] == ms[i].stored[id]
    ensures j < |ops| && ops[j].Persisting? && ops[j].receipt.receiptId == id && ops[j].stored.Ok? ==>
      ops[j].stored.value == ms[i].stored[id]
    decreases j
  {
    if i < j {
      FirstWriteStays(ms, ops, i, j - 1, id);
      assert Spec(ms[j - 1], ops[j - 1], ms[j]);
    }
    if j < |ops| { assert Spec(ms[j], ops[j], ms[j + 1]); }
  }

  /** MAIN: a damaged file blocks its id and every listing until it is acknowledged. */
  lemma {:induction false} DamageStays(ms: seq<Ledger>, ops: seq<Op>, i: nat, j: nat, id: string)
    requires IsRun(ms, ops)
    requires i <= j < |ops| && id in ms[i].broken
    requires forall k :: i <= k < j ==> !(ops[k].Acking? && ops[k].id == id && ops[k].gone.Ok?)
    ensures id in ms[j].broken
    ensures ops[j].Listing? ==> !ops[j].docs.Ok?
    ensures ops[j].Persisting? && ops[j].receipt.receiptId == id ==> !ops[j].stored.Ok?
    ensures ops[j].Acking? && ops[j].id == id && ops[j].gone.Ok? ==> !ops[j].gone.value && id !in ms[j + 1].broken
    decreases j
  {
    if i < j {
      DamageStays(ms, ops, i, j - 1, id);
      assert Spec(ms[j - 1], ops[j - 1], ms[j]);
    }
    assert Spec(ms[j], ops[j], ms[j + 1]);
  }

  // ---- the outbox ----

  /** Where a persist fails: reading what is there, before the temporary exists, while it is written or
      moved; and whether it could then be removed. */
  datatype Fault = NoFault | AtRead | AtMkdir | AtOpen | AtWrite(bytes: string, removed: bool) | AtReplace(removed: bool)

  /** Every state since `t0` is one that a persist cut off there may leave: as before or as after, and no
      receipt file torn. */
  ghost predicate CrashStates(t0: seq<Dir>, t1: seq<Dir>, a: Dir, receipt: Receipt) {
    && |t0| <= |t1| && t1[..|t0|] == t0
    && forall i :: |t0| <= i < |t1| ==> Step(a, Interrupted(receipt), t1[i])
  }

  lemma TraceSnoc(t0: seq<Dir>, t1: seq<Dir>, files: Dir, a: Dir, receipt: Receipt)
    requires CrashStates(t0, t1, a, receipt) && Step(a, Interrupted(receipt), files)
    ensures CrashStates(t0, t1 + [files], a, receipt)
  {
    assert (t1 + [files])[..|t0|] == t1[..|t0|];
  }

  class AccountingOutbox {
    var files: Dir
    ghost var trace: seq<Dir>

    constructor (files: Dir)
      ensures this.files == files && trace == []
    {
      this.files, trace := files, [];
    }

    method Write(name: string, content: Content)
      modifies this
      ensures files == old(files)[name := content] && trace == old(trace) + [files]
    {
      files := files[name := content];
      trace := trace + [files];
    }

    method Delete(name: string)
      modifies this
      ensures files == old(files) - {name} && trace == old(trace) + [files]
    {
      files := files - {name};
      trace := trace + [files];
    }

    /** `_read_one`: the document, nothing where there is no file, or an error where the file is damaged or
        cannot be read. */
    method ReadOne(name: string, fails: bool) returns (r: Result<Option<Receipt>>)
      requires IsJson(name)
      ensures r.Ok? || r == OutboxError
      ensures r.Ok? <==> !fails && !Damaged(files, name)
      ensures r.Ok? ==> r.value == Get(files, IdOf(name)) && (r.value.None? <==> name !in files)
    {
      JsonIsFinal(name);
      if fails { return OutboxError; }
      if name !in files { return Ok(None); }
      var content := files[name];
      if !content.Doc? || !ValidId(content.doc.receiptId) || name != Final(content.doc.receiptId) { return OutboxError; }
      r := Ok(Some(content.doc));
    }

    /** First write wins: an id that is stored returns its document; otherwise the receipt is stored, or
        nothing changes. A damaged file is neither returned nor overwritten. A crash at any point leaves
        no receipt file torn and the outbox as before or after. */
    method Persist(receipt: Receipt, hex: string, fault: Fault) returns (r: Result<Receipt>)
      requires Temp(receipt.receiptId, hex) !in files
      modifies this
      ensures Step(old(files), Persisting(receipt, r), files)
      ensures r.InvalidId? <==> !ValidId(receipt.receiptId)
      ensures r.OtherError? <==> ValidId(receipt.receiptId) && Final(receipt.receiptId) !in old(files) && fault.AtMkdir?
      ensures r.Ok? <==> ValidId(receipt.receiptId) && !fault.AtRead? && !Damaged(old(files), Final(receipt.receiptId))
                         && (Final(receipt.receiptId) in old(files) || fault.NoFault?)
      ensures CrashStates(old(trace), trace, old(files), receipt)
    {
      if !ValidId(receipt.receiptId) { return InvalidId; }
      var final := Final(receipt.receiptId);
      FinalIsJson(receipt.receiptId);
      var existing := ReadOne(final, fault.AtRead?);
      if !existing.Ok? { return OutboxError; }
      if existing.value.Some? { return Ok(existing.value.value); }
      if fault.AtMkdir? { return OtherError; }
      if fault.AtOpen? { return OutboxError; }
      TempIsNotJson(receipt.receiptId, hex);
      r := Store(receipt, Temp(receipt.receiptId, hex), fault);
    }

    /** Write to the temporary, then move it into place; on a fault, try to remove it. */
    method Store(receipt: Receipt, temp: string, fault: Fault) returns (r: Result<Receipt>)
      requires ValidId(receipt.receiptId) && Final(receipt.receiptId) !in files
      requires temp !in files && !IsJson(temp) && temp != Final(receipt.receiptId)
      requires fault.NoFault? || fault.AtWrite? || fault.AtReplace?
      modifies this
      ensures (r == Ok(receipt) || r == OutboxError) && (r.Ok? <==> fault.NoFault?)
      ensures Step(old(files), Persisting(receipt, r), files)
      ensures CrashStates(old(trace), trace, old(files), receipt)
    {
      ghost var f0, t0 := files, trace;
      Attempt(temp, Torn(""), f0, t0, receipt);
      Attempt(temp, if fault.AtWrite? then Torn(fault.bytes) else Doc(receipt), f0, t0, receipt);
      if fault.NoFault? {
        Move(temp, f0, t0, receipt);
        r := Ok(receipt);
      } else {
        if fault.removed { Discard(temp, f0, t0, receipt); }
        r := OutboxError;
      }
    }

    /** One write to the temporary. */
    method Attempt(temp: string, content: Content, ghost f0: Dir, ghost t0: seq<Dir>, ghost receipt: Receipt)
      requires !IsJson(temp) && temp !in f0 && CrashStates(t0, trace, f0, receipt)
      requires files == f0 || (temp in files && files == f0[temp := files[temp]])
      modifies this
      ensures files == f0[temp := content] && Same(f0, files)
      ensures CrashStates(t0, trace, f0, receipt)
    {
      OtherFile(f0, temp, content);
      ghost var t1 := trace;
      Write(temp, content);
      assert files == f0[temp := content];
      TraceSnoc(t0, t1, files, f0, receipt);
    }

    /** The atomic replace. */
    method Move(temp: string, ghost f0: Dir, ghost t0: seq<Dir>, receipt: Receipt)
      requires ValidId(receipt.receiptId) && Final(receipt.receiptId) !in f0 && temp != Final(receipt.receiptId)
      requires files == f0[temp := Doc(receipt)] && temp !in f0 && !IsJson(temp) && CrashStates(t0, trace, f0, receipt)
      modifies this
      ensures Added(f0, files, receipt) && Get(files, receipt.receiptId) == Some(receipt)
      ensures CrashStates(t0, trace, f0, receipt)
    {
      MovedInto(f0, temp, receipt);
      TraceSnoc(t0, trace, (f0 - {temp})[Final(receipt.receiptId) := Doc(receipt)], f0, receipt);
      files := (files - {temp})[Final(receipt.receiptId) := Doc(receipt)];
      assert files == (f0 - {temp})[Final(receipt.receiptId) := Doc(receipt)];
      trace := trace + [files];
    }

    /** Removing the temporary. */
    method Discard(temp: string, ghost f0: Dir, ghost t0: seq<Dir>, ghost receipt: Receipt)
      requires !IsJson(temp) && temp in files && files == f0[temp := files[temp]]
      requires CrashStates(t0, trace, f0, receipt)
      modifies this
      ensures Same(f0, files) && CrashStates(t0, trace, f0, receipt)
    {
      OtherFile(f0, temp, Torn(""));
      assert files - {temp} == f0 - {temp};
      ghost var t1 := trace;
      Delete(temp);
      TraceSnoc(t0, t1, files, f0, receipt);
    }

    /** Acknowledging removes exactly that receipt's file, damaged or not, and says whether it was missing. */
    method Ack(id: string, fails: bool) returns (r: Result<bool>)
      modifies this
      ensures r.InvalidId? <==> !ValidId(id)
      ensures r.Ok? ==> Removed(old(files), files, id) && (r.value <==> Final(id) !in old(files))
      ensures !r.Ok? ==> files == old(files)
      ensures Step(old(files), Acking(id, r), files)
    {
      if !ValidId(id) { return InvalidId; }
      FinalIsJson(id);
      Unlinked(files, id);
      if Final(id) !in files {
        assert files - {Final(id)} == files;
        return Ok(true);
      }
      if fails { return OutboxError; }
      Delete(Final(id));
      r := Ok(false);
    }

    /** All stored receipts, by (createdAt, receiptId); an error exactly if a receipt file is damaged or
        cannot be read. Temporaries never show up. */
    method Pending(unreadable: set<string>) returns (r: Result<seq<Receipt>>)
      ensures r.Ok? || r == OutboxError
      ensures r.Ok? <==> forall name :: name in files && IsJson(name) ==> !Damaged(files, name) && name !in unreadable
      ensures Step(files, Listing(r), files)
    {
      var docs: seq<Receipt> := [];
      var rest := files.Keys;
      while rest != {}
        invariant rest <= files.Keys && Sorted(docs)
        invariant forall d :: d in docs <==> Get(files, d.receiptId) == Some(d) && Final(d.receiptId) !in rest
        invariant forall name :: name in files && IsJson(name) && name !in rest ==> !Damaged(files, name) && name !in unreadable
        decreases |rest|
      {
        var name := AnyOf(rest);
        rest := rest - {name};
        if IsJson(name) {
          var one := ReadOne(name, name in unreadable);
          if !one.Ok? { return OutboxError; }
          JsonIsFinal(name);
          InsertSorts(docs, one.value.value);
          docs := Insert(docs, one.value.value);
        } else {
          forall id ensures Final(id) != name { FinalIsJson(id); }
        }
      }
      r := Ok(docs);
    }
  }
}
