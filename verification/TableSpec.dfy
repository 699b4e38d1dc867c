/** The receive block-ack table of one interface, as a list of flows keyed by (TID, transmitter). */
module TableSpec {
  import opened Basics
  import opened ReorderSpec
  import opened ReorderConservation

  const MAX_NUM_TID := 8

  datatype Entry = Entry(tid: int, ta: nat, complete: bool, flow: Flow)

  type Table = seq<Entry>

  datatype TableOutcome = TableOutcome(table: Table, out: seq<Delivery>, ok: bool)

  // ---------------------------------------------------------------- block ack parameter set

  /** Bits 2 to 5. */
  function TidField(param: nat): nat {
    param / 4 % 16
  }

  /** Bits 6 to 15. */
  function WinField(param: nat): nat {
    param / 64 % 1024
  }

  /** Bit 0. */
  function AmsduBit(param: nat): bool {
    param % 2 == 1
  }

  /** The window granted: the one requested, capped; the cap itself when none is requested. */
  function GrantedWin(param: nat, rxWinSize: nat): nat {
    if WinField(param) == 0 || rxWinSize < WinField(param) then rxWinSize else WinField(param)
  }

  /** The parameter set of the response. */
  function ResponseParam(param: nat, rxAmsdu: bool, rxWinSize: nat): nat {
    var kept := param % 64;
    (if rxAmsdu || !AmsduBit(param) then kept else kept - 1) + 64 * GrantedWin(param, rxWinSize)
  }

  /** A parameter set is its fields; bit 1 is the policy. */
  lemma FieldsOfParam(param: nat)
    requires param < 0x1_0000
    ensures param == 64 * WinField(param) + 4 * TidField(param) + param % 4 && TidField(param) < 16
    ensures AmsduBit(param) <==> param % 4 == 1 || param % 4 == 3
  {
    hide WinField, TidField, AmsduBit;
    Parts(param);
    Fields(param / 64, param % 64 / 4, param % 4);
  }

  /** The response announces exactly the window granted: the smaller of the limit and the window requested, or the
      limit when none is; for the same TID and policy, and A-MSDUs only where both sides have them. */
  lemma ResponseAnnouncesWindow(param: nat, rxAmsdu: bool, rxWinSize: nat)
    requires param < 0x1_0000 && 1 <= rxWinSize <= 1023
    ensures var r := ResponseParam(param, rxAmsdu, rxWinSize);
            && r < 0x1_0000 && WinField(r) == GrantedWin(param, rxWinSize) && 1 <= WinField(r) <= rxWinSize
            && WinField(r) == (if WinField(param) == 0 then rxWinSize else Min(rxWinSize, WinField(param)))
            && r % 4 / 2 == param % 4 / 2
            && TidField(r) == TidField(param) && (AmsduBit(r) <==> AmsduBit(param) && rxAmsdu)
  {
    hide WinField, TidField, AmsduBit;
    var h, l := param % 64 / 4, param % 4;
    Parts(param);
    Fields(param / 64, h, l);
    var g := GrantedWin(param, rxWinSize);
    var l' := if rxAmsdu || l % 2 == 0 then l else l - 1;
    Fields(g, h, l');
    LowBits(16 * g + h, l');
  }

  lemma Parts(param: nat)
    ensures param == 64 * (param / 64) + 4 * (param % 64 / 4) + param % 4 && param % 64 / 4 < 16
    ensures param % 64 == 4 * (param % 64 / 4) + param % 4
  {
    var r := param % 64;
    assert r == 4 * (r / 4) + r % 4;
    assert param == 4 * (16 * (param / 64) + r / 4) + r % 4;
  }

  lemma LowBits(q: nat, l: nat)
    requires l < 4
    ensures (4 * q + l) % 4 == l
  {
  }

  lemma QuotientBy64(q: nat, r: nat)
    requires r < 64
    ensures (64 * q + r) / 64 == q
  {
  }

  lemma QuotientBy4(q: nat, r: nat)
    requires r < 4
    ensures (4 * q + r) / 4 == q
  {
  }

  lemma Fields(g: nat, h: nat, l: nat)
    requires g < 1024 && h < 16 && l < 4
    ensures var r := 64 * g + 4 * h + l;
            r < 0x1_0000 && WinField(r) == g && TidField(r) == h && (AmsduBit(r) <==> l % 2 == 1)
  {
    hide WinField, TidField, AmsduBit;
    WinOf(g, 4 * h + l);
    TidOf(g, h, l);
    AmsduOf(32 * g + 2 * h, l);
  }

  lemma WinOf(g: nat, r: nat)
    requires g < 1024 && r < 64
    ensures WinField(64 * g + r) == g
  {
    QuotientBy64(g, r);
  }

  lemma TidOf(g: nat, h: nat, l: nat)
    requires h < 16 && l < 4
    ensures TidField(64 * g + 4 * h + l) == h
  {
    QuotientBy4(16 * g + h, l);
  }

  lemma AmsduOf(q: nat, l: nat)
    ensures AmsduBit(2 * q + l) <==> l % 2 == 1
  {
  }

  // ---------------------------------------------------------------- operations

  predicate HasKey(e: Entry, tid: int, ta: nat) {
    e.tid == tid && e.ta == ta
  }

  /** The first entry with the key; |es| when there is none. */
  function Find(es: Table, tid: int, ta: nat): (i: nat)
    ensures i <= |es|
    ensures i < |es| ==> HasKey(es[i], tid, ta)
    ensures forall j :: 0 <= j < i ==> !HasKey(es[j], tid, ta)
  {
    if es == [] || HasKey(es[0], tid, ta) then 0 else 1 + Find(es[1..], tid, ta)
  }

  function Remove(es: Table, i: nat): Table
    requires i < |es|
  {
    es[..i] + es[i + 1..]
  }

  function ReceiveFor(es: Table, tid: int, ta: nat, s: nat, t: PktType, p: Payload): TableOutcome {
    var i := Find(es, tid, ta);
    if i == |es| || es[i].flow.size <= 1 then
      TableOutcome(es, if t.Bar? then [] else Forward(s, p), true)
    else
      var r := Receive(es[i].flow, s, t, p);
      TableOutcome(es[i := es[i].(flow := r.flow)], r.out, r.ok)
  }

  /** DELBA, a failed response, cleanup: the entry goes once its window went up. */
  function Delete(es: Table, tid: int, ta: nat): TableOutcome {
    var i := Find(es, tid, ta);
    if i == |es| then TableOutcome(es, [], true)
    else TableOutcome(Remove(es, i), Drained(es[i].flow), true)
  }

  function Create(es: Table, tid: int, ta: nat, size: nat, ssn: nat, last: nat): TableOutcome {
    if tid < 0 || tid >= MAX_NUM_TID then TableOutcome(es, [], true) else
      var d := Delete(es, tid, ta);
      TableOutcome(d.table + [Entry(tid, ta, false, NewFlow(size, ssn, last))], d.out, true)
  }

  function Complete(es: Table, tid: int, ta: nat, amsdu: bool): Table {
    var i := Find(es, tid, ta);
    if i == |es| then es
    else es[i := es[i].(complete := true, flow := es[i].flow.(amsdu := amsdu))]
  }

  /** One step of a single entry, other entries untouched. */
  function StepEntry(es: Table, i: nat, input: Input): (r: TableOutcome)
    requires i < |es|
    ensures |r.table| == |es|
  {
    var r := ReorderConservation.Step(es[i].flow, input);
    TableOutcome(es[i := es[i].(flow := r.flow)], r.out, r.ok)
  }

  function FlushFrom(es: Table, i: nat): TableOutcome
    requires i <= |es|
    decreases |es| - i
  {
    if i == |es| then TableOutcome(es, [], true) else
      var a := StepEntry(es, i, Input.FlushWork);
      var b := FlushFrom(a.table, i + 1);
      TableOutcome(b.table, a.out + b.out, true)
  }

  function SetNoDrops(es: Table, flag: bool): Table {
    seq(|es|, i requires 0 <= i < |es| => es[i].(flow := es[i].flow.(noDrop := flag)))
  }

  /** Deletes every entry, oldest first. */
  function DeleteAll(es: Table): TableOutcome {
    if es == [] then TableOutcome([], [], true) else
      var r := DeleteAll(es[1..]);
      TableOutcome([], Drained(es[0].flow) + r.out, true)
  }

  // ---------------------------------------------------------------- invariant

  predicate UniqueKeys(es: Table) {
    forall i, j :: 0 <= i < j < |es| ==> !HasKey(es[j], es[i].tid, es[i].ta)
  }

  /** At most one entry for a key, valid TIDs, and every flow fit. */
  ghost predicate Fit(es: Table) {
    && UniqueKeys(es)
    && forall i :: 0 <= i < |es| ==> 0 <= es[i].tid < MAX_NUM_TID && 1 <= es[i].flow.size <= 1023 && FitFlow(es[i].flow)
  }

  lemma RemoveFit(es: Table, i: nat)
    requires Fit(es) && i < |es|
    ensures Fit(Remove(es, i))
    ensures Find(Remove(es, i), es[i].tid, es[i].ta) == |es| - 1
  {
    var r := Remove(es, i);
    assert forall j :: 0 <= j < |r| ==> r[j] == es[if j < i then j else j + 1];
    assert forall j :: 0 <= j < |r| ==> !HasKey(r[j], es[i].tid, es[i].ta);
  }

  lemma DeleteFit(es: Table, tid: int, ta: nat)
    requires Fit(es)
    ensures Fit(Delete(es, tid, ta).table)
    ensures Find(Delete(es, tid, ta).table, tid, ta) == |Delete(es, tid, ta).table|
  {
    var i := Find(es, tid, ta);
    if i < |es| { RemoveFit(es, i); }
  }

  lemma CreateFit(es: Table, tid: int, ta: nat, size: nat, ssn: nat, last: nat)
    requires Fit(es) && 1 <= size <= 1023 && (last < 4096 || last == NO_SEQ)
    ensures Fit(Create(es, tid, ta, size, ssn, last).table)
  {
    DeleteFit(es, tid, ta);
  }

  /** Replacing the flow of an entry by a fit one of the same size. */
  lemma ReplaceFit(es: Table, i: nat, e: Entry)
    requires Fit(es) && i < |es| && HasKey(e, es[i].tid, es[i].ta)
    requires e.flow.size == es[i].flow.size && FitFlow(e.flow)
    ensures Fit(es[i := e])
  {
  }
}
