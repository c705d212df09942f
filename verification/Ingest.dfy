/**
 Ingest of continuous profiling batches, version 3 and later: batches and windows carry content digests, and
 a retransmission is told apart from a conflict by them.
 */
module Ingest {
  import opened Text
  import opened Wrappers

  type Time = int

  const UNSET: Time := -62_135_596_800_000_000_000

  datatype Window = Window(id: string, start: Time, end: Time, fingerprint: string, generation: string,
                           digest: string, signals: seq<string>)

  datatype Batch = Batch(id: string, session: string, start: Time, end: Time, generation: string, sequence: nat,
                         digest: string,
                         windowCount: nat, windows: seq<Window>)

  // Validation

  predicate Blank(s: string) {
    forall i :: 0 <= i < |s| ==> IsSpace(s[i])
  }

  /** Length in bytes of the UTF-8 form. */
  function ByteLength(s: string): nat {
    if s == "" then 0
    else
      var c := s[0];
      (if c < '\U{80}' then 1 else if c < '\U{800}' then 2 else if c < '\U{10000}' then 3 else 4) + ByteLength(s[1..])
  }

  predicate IsSha256(s: string) {
    |s| == 64 && forall i :: 0 <= i < |s| ==> '0' <= s[i] <= '9' || 'a' <= s[i] <= 'f'
  }

  /** What a refusal names: a field of the batch, or of one of its windows. */
  datatype Field = BatchId | Generation | Sequence | ContentDigest | Windows | WindowCount
    | Range(i: nat) | Outside(i: nat) | WindowId(i: nat) | Fingerprint(i: nat) | WindowGeneration(i: nat)
    | WindowDigest(i: nat)

  /** What is asked of a window, field by field. */
  ghost predicate WindowFieldOk(w: Window, b: Batch, field: Field)
    requires field.Range? || field.Outside? || field.WindowId? || field.Fingerprint? || field.WindowGeneration? ||
      field.WindowDigest?
  {
    match field
    case Range(_) => w.start != UNSET && w.end != UNSET && w.start < w.end
    case Outside(_) => b.start <= w.start && w.end <= b.end
    case WindowId(_) => !Blank(w.id) && ByteLength(w.id) <= 128
    case Fingerprint(_) => !Blank(w.fingerprint) && ByteLength(w.fingerprint) <= 256
    case WindowGeneration(_) => w.generation == "" || w.generation == b.generation
    case WindowDigest(_) => IsSha256(w.digest)
  }

  ghost predicate WindowOk(w: Window, b: Batch) {
    && w.start != UNSET && w.end != UNSET && w.start < w.end && b.start <= w.start && w.end <= b.end
    && !Blank(w.id) && ByteLength(w.id) <= 128 && !Blank(w.fingerprint) && ByteLength(w.fingerprint) <= 256
    && (w.generation == "" || w.generation == b.generation)
    && IsSha256(w.digest)
  }

  ghost predicate BatchOk(b: Batch) {
    && !Blank(b.id) && !Blank(b.generation) && ByteLength(b.generation) <= 64 && b.sequence != 0 && IsSha256(b.digest)
    && b.windows != [] && (b.windowCount == 0 || b.windowCount == |b.windows|)
    && forall w :: w in b.windows ==> WindowOk(w, b)
  }

  /** The field a refusal names is one that is wrong, in the first wrong window if it is a window's. */
  ghost predicate Refuted(b: Batch, field: Field) {
    match field
    case BatchId => Blank(b.id)
    case Generation => Blank(b.generation) || ByteLength(b.generation) > 64
    case Sequence => b.sequence == 0
    case ContentDigest => !IsSha256(b.digest)
    case Windows => b.windows == []
    case WindowCount => b.windowCount != 0 && b.windowCount != |b.windows|
    case _ =>
      && field.i < |b.windows| && !WindowFieldOk(b.windows[field.i], b, field)
      && forall k :: 0 <= k < field.i ==> WindowOk(b.windows[k], b)
  }

  method IsBlank(s: string) returns (blank: bool)
    ensures blank == Blank(s)
  {
    for i := 0 to |s|
      invariant forall k :: 0 <= k < i ==> IsSpace(s[k])
    {
      if !IsSpace(s[i]) {
        return false;
      }
    }
    return true;
  }

  method ValidSha256(value: string) returns (valid: bool)
    ensures valid == IsSha256(value)
  {
    if |value| != 64 {
      return false;
    }
    for i := 0 to |value|
      invariant forall k :: 0 <= k < i ==> '0' <= value[k] <= '9' || 'a' <= value[k] <= 'f'
    {
      var c := value[i];
      if !(('0' <= c <= '9') || ('a' <= c <= 'f')) {
        return false;
      }
    }
    return true;
  }

  method ValidateWindow(w: Window, b: Batch, i: nat) returns (refused: Option<Field>)
    requires i < |b.windows| && b.windows[i] == w
    requires forall k :: 0 <= k < i ==> WindowOk(b.windows[k], b)
    ensures refused.None? <==> WindowOk(w, b)
    ensures refused.Some? ==> Refuted(b, refused.value)
  {
    if w.start == UNSET || w.end == UNSET || !(w.start < w.end) {
      return Some(Range(i));
    }
    if w.start < b.start || w.end > b.end {
      return Some(Outside(i));
    }
    var blank := IsBlank(w.id);
    if blank || ByteLength(w.id) > 128 {
      return Some(WindowId(i));
    }
    blank := IsBlank(w.fingerprint);
    if blank || ByteLength(w.fingerprint) > 256 {
      return Some(Fingerprint(i));
    }
    if w.generation != "" && w.generation != b.generation {
      return Some(WindowGeneration(i));
    }
    var valid := ValidSha256(w.digest);
    return if valid then None else Some(WindowDigest(i));
  }

  /** Refuses exactly the batches that are not well formed, for a reason that holds. */
  method Validate(b: Batch) returns (refused: Option<Field>)
    ensures refused.None? <==> BatchOk(b)
    ensures refused.Some? ==> Refuted(b, refused.value)
  {
    var blank := IsBlank(b.id);
    if blank {
      return Some(BatchId);
    }
    blank := IsBlank(b.generation);
    if blank || ByteLength(b.generation) > 64 {
      return Some(Generation);
    }
    if b.sequence == 0 {
      return Some(Sequence);
    }
    var valid := ValidSha256(b.digest);
    if !valid {
      return Some(ContentDigest);
    }
    if |b.windows| == 0 {
      return Some(Windows);
    }
    if b.windowCount != 0 && b.windowCount != |b.windows| {
      return Some(WindowCount);
    }
    for i := 0 to |b.windows|
      invariant forall k :: 0 <= k < i ==> WindowOk(b.windows[k], b)
    {
      refused := ValidateWindow(b.windows[i], b, i);
      if refused.Some? {
        assert b.windows[i] in b.windows;
        return;
      }
    }
    return None;
  }

  // Rows

  datatype Key = Key(session: string, window: string, signal: string)
  datatype Row = Row(key: Key, digest: string)
  datatype BatchRow = BatchRow(session: string, start: Time, end: Time, digest: string)

  /** rows is the table of window rows in the order they were inserted. */
  datatype State = State(batches: map<string, BatchRow>, rows: seq<Row>)

  const INIT: State := State(map[], [])

  datatype Outcome = Stored | Duplicate | Conflict

  function WindowRows(session: string, w: Window): seq<Row> {
    seq(|w.signals|, i requires 0 <= i < |w.signals| => Row(Key(session, w.id, w.signals[i]), w.digest))
  }

  /** The rows a batch asks for, window by window and signal by signal. */
  function RowsOf(session: string, windows: seq<Window>): seq<Row> {
    if windows == [] then []
    else RowsOf(session, windows[..|windows| - 1]) + WindowRows(session, windows[|windows| - 1])
  }

  function Wanted(b: Batch): seq<Row> {
    RowsOf(b.session, b.windows)
  }

  lemma {:induction false} RowsOfWindows(session: string, windows: seq<Window>, r: Row)
    ensures r in RowsOf(session, windows) <==>
      exists w, g :: w in windows && g in w.signals && r == Row(Key(session, w.id, g), w.digest)
  {
    if windows != [] {
      var n := |windows| - 1;
      RowsOfWindows(session, windows[..n], r);
      assert windows == windows[..n] + [windows[n]];
      var last := WindowRows(session, windows[n]);
      if r in last {
        var i :| 0 <= i < |last| && last[i] == r;
        assert windows[n] in windows && windows[n].signals[i] in windows[n].signals;
      }
      if w, g :| w in windows && g in w.signals && r == Row(Key(session, w.id, g), w.digest) {
        if w == windows[n] {
          var i :| 0 <= i < |w.signals| && w.signals[i] == g;
          assert last[i] == r;
        }
      }
    }
  }

  /** A batch asks for one row for every signal of every window, with the window's digest. */
  lemma WantedRows(b: Batch, r: Row)
    ensures r in Wanted(b) <==>
      exists w, g :: w in b.windows && g in w.signals && r == Row(Key(b.session, w.id, g), w.digest)
  {
    RowsOfWindows(b.session, b.windows, r);
  }

  function Header(b: Batch): BatchRow {
    BatchRow(b.session, b.start, b.end, b.digest)
  }

  function Find(rows: seq<Row>, key: Key): Option<Row> {
    if rows == [] then None else if rows[0].key == key then Some(rows[0]) else Find(rows[1..], key)
  }

  /** An existing row with the same digest is skipped, with another it is a conflict. */
  function AddRow(rows: seq<Row>, r: Row): Option<seq<Row>> {
    match Find(rows, r.key)
    case None => Some(rows + [r])
    case Some(found) => if found.digest == r.digest then Some(rows) else None
  }

  function AddRows(rows: seq<Row>, wanted: seq<Row>): Option<seq<Row>> {
    if wanted == [] then Some(rows)
    else match AddRows(rows, wanted[..|wanted| - 1])
      case None => None
      case Some(more) => AddRow(more, wanted[|wanted| - 1])
  }

  /** One submission, as one transaction: a conflict rolls everything back. */
  function Submit(s: State, b: Batch): (State, Outcome) {
    if b.id in s.batches then
      (s, if s.batches[b.id] == Header(b) then Duplicate else Conflict)
    else match AddRows(s.rows, Wanted(b))
      case None => (s, Conflict)
      case Some(rows) => (State(s.batches[b.id := Header(b)], rows), Stored)
  }

  function Run(history: seq<Batch>): State {
    if history == [] then INIT else Submit(Run(history[..|history| - 1]), history[|history| - 1]).0
  }

  // One row per key, and rows never change

  ghost predicate OnePerKey(rows: seq<Row>) {
    forall i, j :: 0 <= i < j < |rows| ==> rows[i].key != rows[j].key
  }

  lemma {:induction false} Found(rows: seq<Row>, key: Key)
    ensures match Find(rows, key)
      case None => forall r :: r in rows ==> r.key != key
      case Some(r) => r in rows && r.key == key
  {
    if rows != [] {
      Found(rows[1..], key);
    }
  }

  lemma AddRowKeeps(rows: seq<Row>, r: Row)
    requires OnePerKey(rows)
    ensures var z := AddRow(rows, r);
      z.Some? ==> OnePerKey(z.value) && rows <= z.value && forall x :: x in z.value <==> x in rows || x == r
    ensures AddRow(rows, r).Some? <==> forall x :: x in rows && x.key == r.key ==> x.digest == r.digest
  {
    Found(rows, r.key);
  }

  ghost predicate Agree(a: seq<Row>, b: seq<Row>) {
    forall x, y :: x in a && y in b && x.key == y.key ==> x.digest == y.digest
  }

  /** Rows are added exactly when all digests agree; then every row asked for is there, and nothing else is new. */
  lemma {:induction false} AddRowsKeeps(rows: seq<Row>, wanted: seq<Row>)
    requires OnePerKey(rows)
    ensures var z := AddRows(rows, wanted);
      z.Some? ==> OnePerKey(z.value) && rows <= z.value && forall x :: x in z.value <==> x in rows || x in wanted
    ensures AddRows(rows, wanted).Some? <==> Agree(rows, wanted) && Agree(wanted, wanted)
  {
    if wanted != [] {
      var n := |wanted| - 1;
      var last, rest := wanted[n], wanted[..n];
      AddRowsKeeps(rows, rest);
      assert wanted == rest + [last];
      var more := AddRows(rows, rest);
      if more.Some? {
        AddRowKeeps(more.value, last);
        AgreeLast(rows, rest, last, more.value);
      } else {
        AgreePrefix(rows, wanted, rest);
      }
    }
  }

  lemma AgreePrefix(rows: seq<Row>, wanted: seq<Row>, rest: seq<Row>)
    requires forall x :: x in rest ==> x in wanted
    ensures Agree(rows, wanted) && Agree(wanted, wanted) ==> Agree(rows, rest) && Agree(rest, rest)
  {
  }

  lemma AgreeLast(rows: seq<Row>, rest: seq<Row>, last: Row, more: seq<Row>)
    requires Agree(rows, rest) && Agree(rest, rest) && forall x :: x in more <==> x in rows || x in rest
    ensures (forall x :: x in more && x.key == last.key ==> x.digest == last.digest) <==>
      Agree(rows, rest + [last]) && Agree(rest + [last], rest + [last])
  {
    var wanted := rest + [last];
    if Agree(rows, wanted) && Agree(wanted, wanted) {
      assert last in wanted;
      assert forall x :: x in rest ==> x in wanted;
    }
  }

  lemma SubmitKeeps(s: State, b: Batch)
    requires OnePerKey(s.rows)
    ensures OnePerKey(Submit(s, b).0.rows) && s.rows <= Submit(s, b).0.rows
    ensures Submit(s, b).1 != Stored ==> Submit(s, b).0 == s
  {
    AddRowsKeeps(s.rows, Wanted(b));
  }

  /** After any submissions there is one row for each session, window and signal. */
  lemma {:induction false} RunOnePerKey(history: seq<Batch>)
    ensures OnePerKey(Run(history).rows)
  {
    if history != [] {
      RunOnePerKey(history[..|history| - 1]);
      SubmitKeeps(Run(history[..|history| - 1]), history[|history| - 1]);
    }
  }

  /** A row once stored keeps its digest through all later submissions. */
  lemma {:induction false} DigestsNeverChange(before: seq<Batch>, later: seq<Batch>, key: Key)
    requires Find(Run(before).rows, key).Some?
    ensures Find(Run(before + later).rows, key) == Find(Run(before).rows, key)
  {
    if later == [] {
      assert before + later == before;
    } else {
      var n := |later| - 1;
      DigestsNeverChange(before, later[..n], key);
      assert (before + later)[..|before + later| - 1] == before + later[..n];
      RunOnePerKey(before + later[..n]);
      SubmitKeeps(Run(before + later[..n]), later[n]);
      FindPrefix(Run(before + later[..n]).rows, Run(before + later).rows, key);
    }
  }

  lemma {:induction false} FindPrefix(rows: seq<Row>, more: seq<Row>, key: Key)
    requires rows <= more && Find(rows, key).Some?
    ensures Find(more, key) == Find(rows, key)
  {
    if rows[0].key != key {
      FindPrefix(rows[1..], more[1..], key);
    }
  }

  // Which histories are free of conflicts

  ghost predicate Accepted(history: seq<Batch>) {
    history == [] || (Accepted(history[..|history| - 1]) &&
      Submit(Run(history[..|history| - 1]), history[|history| - 1]).1 != Conflict)
  }

  /** Digests are faithful: batches of one id and one digest are the same batch. */
  ghost predicate Faithful(history: seq<Batch>) {
    forall a, b :: a in history && b in history && a.id == b.id && a.digest == b.digest ==> a == b
  }

  /** Batches of one id have one digest, and so have windows of one id that share a signal. */
  ghost predicate Compatible(a: Batch, b: Batch) {
    (a.id == b.id ==> a.digest == b.digest) && (a.session == b.session ==> WindowsAgree(a.windows, b.windows))
  }

  ghost predicate WindowsAgree(a: seq<Window>, b: seq<Window>) {
    forall v, w, g | v in a && w in b && g in v.signals && g in w.signals :: v.id == w.id ==> v.digest == w.digest
  }

  lemma AgreeMeans(a: Batch, b: Batch)
    ensures Agree(Wanted(a), Wanted(b)) <==> a.session == b.session ==> WindowsAgree(a.windows, b.windows)
  {
    if Agree(Wanted(a), Wanted(b)) && a.session == b.session {
      forall v, w, g | v in a.windows && w in b.windows && g in v.signals && g in w.signals && v.id == w.id
        ensures v.digest == w.digest
      {
        WantedRows(a, Row(Key(a.session, v.id, g), v.digest));
        WantedRows(b, Row(Key(b.session, w.id, g), w.digest));
      }
    }
    if a.session == b.session ==> WindowsAgree(a.windows, b.windows) {
      forall x, y | x in Wanted(a) && y in Wanted(b) && x.key == y.key ensures x.digest == y.digest {
        WantedRows(a, x);
        WantedRows(b, y);
      }
    }
  }

  ghost predicate AllCompatible(history: seq<Batch>) {
    forall a, b :: a in history && b in history ==> Compatible(a, b)
  }

  /** What the tables hold after a history without conflicts: all its batches and all their rows. */
  ghost predicate HoldsAll(s: State, history: seq<Batch>) {
    && OnePerKey(s.rows)
    && (forall id :: id in s.batches <==> exists b :: b in history && b.id == id)
    && (forall b :: b in history ==>
          b.id in s.batches && s.batches[b.id] == BatchRow(b.session, b.start, b.end, b.digest))
    && (forall b, r :: b in history && r in Wanted(b) ==> r in s.rows)
    && (forall r :: r in s.rows ==> exists b :: b in history && r in Wanted(b))
  }

  lemma RowsAgree(s: State, history: seq<Batch>, b: Batch)
    requires HoldsAll(s, history)
    ensures Agree(s.rows, Wanted(b)) <==> forall a :: a in history ==> Agree(Wanted(a), Wanted(b))
  {
    if forall a :: a in history ==> Agree(Wanted(a), Wanted(b)) {
      forall x, y | x in s.rows && y in Wanted(b) && x.key == y.key ensures x.digest == y.digest {
        var a :| a in history && x in Wanted(a);
        assert Agree(Wanted(a), Wanted(b));
      }
    }
  }

  lemma AgreeFlips(a: seq<Row>, b: seq<Row>)
    ensures Agree(a, b) <==> Agree(b, a)
  {
  }

  /** A new batch is stored exactly when it is compatible with all before it and with itself. */
  lemma NewBatch(s: State, history: seq<Batch>, b: Batch)
    requires HoldsAll(s, history) && AllCompatible(history) && b.id !in s.batches
    ensures Submit(s, b).1 != Conflict <==> AllCompatible(history + [b])
    ensures Submit(s, b).1 != Conflict ==> HoldsAll(Submit(s, b).0, history + [b])
  {
    hide OnePerKey, Agree, WindowsAgree, Wanted;
    AddRowsKeeps(s.rows, Wanted(b));
    RowsAgree(s, history, b);
    assert b in history + [b];
    if Submit(s, b).1 != Conflict {
      forall x, y | x in history + [b] && y in history + [b] ensures Compatible(x, y) {
        AgreeFlips(Wanted(x), Wanted(y));
        AgreeMeans(x, y);
      }
      NewBatchHolds(s, history, b);
    } else if AllCompatible(history + [b]) {
      forall a | a in history ensures Agree(Wanted(a), Wanted(b)) {
        assert Compatible(a, b);
        AgreeMeans(a, b);
      }
      AgreeMeans(b, b);
      assert false;
    }
  }

  lemma NewBatchHolds(s: State, history: seq<Batch>, b: Batch)
    requires HoldsAll(s, history) && b.id !in s.batches && AddRows(s.rows, Wanted(b)).Some?
    ensures HoldsAll(Submit(s, b).0, history + [b])
  {
    hide Agree;
    AddRowsKeeps(s.rows, Wanted(b));
    var z, more := Submit(s, b).0, history + [b];
    assert b in more;
    forall id ensures id in z.batches <==> exists a :: a in more && a.id == id {
      if id in s.batches {
        var a :| a in history && a.id == id;
        assert a in more;
      }
    }
    forall r | r in z.rows ensures exists a :: a in more && r in Wanted(a) {
      if r in s.rows {
        var a :| a in history && r in Wanted(a);
        assert a in more;
      }
    }
  }

  /** A batch id seen before is acknowledged exactly when it is the same batch again. */
  lemma KnownBatch(s: State, history: seq<Batch>, b: Batch)
    requires HoldsAll(s, history) && AllCompatible(history) && Faithful(history + [b]) && b.id in s.batches
    ensures Submit(s, b).1 != Conflict <==> AllCompatible(history + [b])
    ensures Submit(s, b).1 != Conflict ==> HoldsAll(Submit(s, b).0, history + [b])
  {
    hide OnePerKey, Agree;
    var a :| a in history && a.id == b.id;
    var more := history + [b];
    assert a in more && b in more;
    if Submit(s, b).1 != Conflict {
      assert a == b;
      assert forall x :: x in more <==> x in history;
    } else {
      assert !Compatible(a, b);
    }
  }

  /** A history meets no conflict exactly when its batches are pairwise compatible, which does not depend on
      their order or repetition; then the tables hold the union of all batches. */
  lemma {:induction false} AcceptedIffCompatible(history: seq<Batch>)
    requires Faithful(history)
    ensures Accepted(history) <==> AllCompatible(history)
    ensures Accepted(history) ==> HoldsAll(Run(history), history)
  {
    hide HoldsAll, Submit;
    if history == [] {
      EmptyHolds();
    } else {
      var n := |history| - 1;
      var before, b := history[..n], history[n];
      assert history == before + [b];
      FaithfulPrefix(before, b);
      AcceptedIffCompatible(before);
      CompatiblePrefix(before, b);
      if Accepted(before) {
        if b.id in Run(before).batches {
          KnownBatch(Run(before), before, b);
        } else {
          NewBatch(Run(before), before, b);
        }
      }
    }
  }

  lemma EmptyHolds()
    ensures HoldsAll(INIT, [])
  {
  }

  lemma FaithfulPrefix(history: seq<Batch>, b: Batch)
    requires Faithful(history + [b])
    ensures Faithful(history)
  {
    assert forall x :: x in history ==> x in history + [b];
  }

  lemma CompatiblePrefix(history: seq<Batch>, b: Batch)
    ensures AllCompatible(history + [b]) ==> AllCompatible(history)
  {
    assert forall x :: x in history ==> x in history + [b];
  }

  /** Two conflict-free histories of the same batches, in any order and with any repetitions, leave the same
      rows. */
  lemma OrderDoesNotMatter(a: seq<Batch>, b: seq<Batch>, r: Row)
    requires Faithful(a) && Accepted(a) && forall x :: x in a <==> x in b
    ensures Accepted(b) && (r in Run(a).rows <==> r in Run(b).rows)
    ensures Run(a).batches == Run(b).batches
  {
    hide OnePerKey, Agree, Accepted, Compatible;
    AcceptedIffCompatible(a);
    AcceptedIffCompatible(b);
    assert forall id :: id in Run(a).batches <==> id in Run(b).batches;
    forall id | id in Run(a).batches ensures Run(a).batches[id] == Run(b).batches[id] {
      var x :| x in a && x.id == id;
    }
  }

  // What becomes of a batch id that was seen before

  lemma {:induction false} RowsOfBatchStay(before: seq<Batch>, later: seq<Batch>, id: string)
    requires id in Run(before).batches
    ensures id in Run(before + later).batches && Run(before + later).batches[id] == Run(before).batches[id]
  {
    if later == [] {
      assert before + later == before;
    } else {
      var n := |later| - 1;
      RowsOfBatchStay(before, later[..n], id);
      assert (before + later)[..|before + later| - 1] == before + later[..n];
    }
  }

  /** Once a batch is stored, its id is answered for ever after by comparison with it: the same session, times and
      digest are a duplicate, anything else is a conflict, and neither changes the tables. */
  lemma KnownIdAnswered(before: seq<Batch>, a: Batch, later: seq<Batch>, b: Batch)
    requires Submit(Run(before), a).1 == Stored && b.id == a.id
    ensures var s := Run(before + [a] + later);
      Submit(s, b) == (s,
        if b.session == a.session && b.start == a.start && b.end == a.end && b.digest == a.digest then Duplicate
        else Conflict)
  {
    assert (before + [a])[..|before|] == before;
    RowsOfBatchStay(before + [a], later, a.id);
  }

  lemma {:induction false} AcceptedDigests(history: seq<Batch>)
    requires Accepted(history)
    ensures forall b :: b in history ==> b.id in Run(history).batches && Run(history).batches[b.id].digest == b.digest
  {
    if history != [] {
      var n := |history| - 1;
      AcceptedDigests(history[..n]);
      assert history == history[..n] + [history[n]];
    }
  }

  /** A history in which an id comes with two digests meets a conflict. */
  lemma DigestsConflict(history: seq<Batch>, a: Batch, b: Batch)
    requires a in history && b in history && a.id == b.id && a.digest != b.digest
    ensures !Accepted(history)
  {
    if Accepted(history) {
      AcceptedDigests(history);
    }
  }

  // The handler's transaction

  class Tables {
    var batches: map<string, BatchRow>
    var rows: seq<Row>

    function Db(): State
      reads this
    {
      State(batches, rows)
    }

    constructor ()
      ensures Db() == INIT
    {
      batches, rows := map[], [];
    }

    method FindRow(key: Key) returns (found: Option<Row>)
      ensures found == Find(rows, key)
    {
      for i := 0 to |rows|
        invariant Find(rows, key) == Find(rows[i..], key)
      {
        assert rows[i..][0] == rows[i] && rows[i..][1..] == rows[i + 1..];
        if rows[i].key == key {
          return Some(rows[i]);
        }
      }
      found := None;
    }

    /** Inserts one window's rows; stops at the first conflict. */
    method InsertWindow(session: string, w: Window, ghost before: seq<Row>, ghost done: seq<Row>) returns (ok: bool)
      requires AddRows(before, done) == Some(rows)
      modifies this`rows
      ensures ok ==> AddRows(before, done + WindowRows(session, w)) == Some(rows)
      ensures !ok ==>
        exists k :: 0 <= k <= |WindowRows(session, w)| && AddRows(before, done + WindowRows(session, w)[..k]).None?
    {
      ghost var wanted := WindowRows(session, w);
      assert done + wanted[..0] == done;
      for i := 0 to |w.signals|
        invariant AddRows(before, done + wanted[..i]) == Some(rows)
      {
        var r := Row(Key(session, w.id, w.signals[i]), w.digest);
        var found := FindRow(r.key);
        ghost var prefix := done + wanted[..i];
        assert done + wanted[..i + 1] == prefix + [r];
        assert (prefix + [r])[..|prefix|] == prefix;
        if found.Some? {
          if found.value.digest != r.digest {
            assert AddRows(before, done + wanted[..i + 1]).None?;
            return false;
          }
        } else {
          rows := rows + [r];
        }
      }
      assert wanted[..|w.signals|] == wanted;
      return true;
    }

    /** Inserts all windows; on a conflict nothing of the batch remains. */
    method IngestBatch(b: Batch) returns (outcome: Outcome)
      modifies this
      ensures Db() == Submit(old(Db()), b).0 && outcome == Submit(old(Db()), b).1
    {
      if b.id in batches {
        return if batches[b.id] == Header(b) then Duplicate else Conflict;
      }
      var before := rows;
      for i := 0 to |b.windows|
        invariant batches == old(batches) && AddRows(before, RowsOf(b.session, b.windows[..i])) == Some(rows)
      {
        ghost var done := RowsOf(b.session, b.windows[..i]);
        assert b.windows[..i + 1][..i] == b.windows[..i];
        var ok := InsertWindow(b.session, b.windows[i], before, done);
        if !ok {
          ghost var wanted := WindowRows(b.session, b.windows[i]);
          ghost var k :| 0 <= k <= |wanted| && AddRows(before, done + wanted[..k]).None?;
          PrefixRefused(b.session, b.windows, i, k, before);
          rows := before;
          return Conflict;
        }
      }
      assert b.windows[..|b.windows|] == b.windows;
      batches := batches[b.id := Header(b)];
      return Stored;
    }
  }

  lemma {:induction false} RefusedStays(rows: seq<Row>, wanted: seq<Row>, more: seq<Row>)
    requires AddRows(rows, wanted).None?
    ensures AddRows(rows, wanted + more).None?
  {
    if more == [] {
      assert wanted + more == wanted;
    } else {
      RefusedStays(rows, wanted, more[..|more| - 1]);
      assert (wanted + more)[..|wanted + more| - 1] == wanted + more[..|more| - 1];
    }
  }

  lemma {:induction false} PrefixRefused(session: string, windows: seq<Window>, i: nat, k: nat, rows: seq<Row>)
    requires i < |windows| && k <= |WindowRows(session, windows[i])|
    requires AddRows(rows, RowsOf(session, windows[..i]) + WindowRows(session, windows[i])[..k]).None?
    ensures AddRows(rows, RowsOf(session, windows)).None?
    decreases |windows|
  {
    hide AddRows, WindowRows;
    var n := |windows| - 1;
    if i == n {
      var wanted := WindowRows(session, windows[i]);
      RefusedStays(rows, RowsOf(session, windows[..i]) + wanted[..k], wanted[k..]);
      assert RowsOf(session, windows[..i]) + wanted[..k] + wanted[k..] == RowsOf(session, windows);
    } else {
      assert windows[..n][..i] == windows[..i];
      PrefixRefused(session, windows[..n], i, k, rows);
      RefusedStays(rows, RowsOf(session, windows[..n]), WindowRows(session, windows[n]));
    }
  }
}
