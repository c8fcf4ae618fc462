/** Framed records on byte files: parsing, the load loop with its torn tail, appends
    and snapshots. */
module Store {
  import opened Base
  import opened Bytes

  // ---------------------------------------------------------------------
  // Frames.
  // ---------------------------------------------------------------------

  type Digest = d: seq<Byte> | |d| == 32 witness seq(32, _ => 0)

  /** The digest is a parameter: nothing here depends on what it computes. */
  datatype Options = Options(format: nat, semantic: nat, maxRecord: nat, maxJournal: nat, digest: seq<Byte> -> Digest)

  const MAGIC: nat := 0x4655_5044
  const HEADER: nat := 16
  const TRAILER: nat := 32

  const EVENT: Byte := 0
  const SNAPSHOT: Byte := 1
  const MARKER: Byte := 2

  function Head(o: Options, kind: Byte, length: nat): (h: seq<Byte>)
    ensures |h| == HEADER
  {
    U32(MAGIC) + U16(o.format) + U16(o.semantic) + [kind, 0, 0, 0] + U32(length)
  }

  function Frame(o: Options, kind: Byte, payload: seq<Byte>): (f: seq<Byte>)
    ensures |f| == HEADER + |payload| + TRAILER
  {
    Head(o, kind, |payload|) + payload + o.digest(payload)
  }

  datatype Parse = End | Torn | Bad(code: Reason) | Complete(kind: Byte, payload: seq<Byte>, consumed: nat)

  /** `parse_frame` on the bytes from some offset on. */
  function ParseFrame(o: Options, data: seq<Byte>): (r: Parse)
    ensures r.Complete? ==> HEADER + TRAILER <= r.consumed <= |data| && r.consumed == HEADER + |r.payload| + TRAILER
    ensures r.End? <==> data == []
  {
    if data == [] then End
    else if |data| < HEADER then Torn
    else if Number(data[..4]) != MAGIC then Bad(StoreCorrupt)
    else if Number(data[4..6]) != o.format % 0x1_0000 then Bad(StoreVersionIncompatible)
    else if Number(data[6..8]) != o.semantic % 0x1_0000 then Bad(StoreSemanticsIncompatible)
    else if data[8] > MARKER then Bad(StoreCorrupt)
    else
      var length := Number(data[12..16]);
      if length > o.maxRecord then Bad(StoreRecordOversized)
      else if |data| < HEADER + length + TRAILER then Torn
      else
        var payload := data[HEADER..HEADER + length];
        if o.digest(payload) != data[HEADER + length..HEADER + length + TRAILER] then Bad(StoreIntegrityFailure)
        else Complete(data[8], payload, HEADER + length + TRAILER)
  }

  /** What a writer accepts. */
  predicate Fits(o: Options, payload: seq<Byte>) { HEADER + |payload| + TRAILER <= o.maxRecord && |payload| < TWO32 }

  lemma HeadParts(o: Options, kind: Byte, length: nat)
    requires length < TWO32
    ensures var h := Head(o, kind, length);
      && Number(h[..4]) == MAGIC && Number(h[4..6]) == o.format % 0x1_0000 && Number(h[6..8]) == o.semantic % 0x1_0000
      && h[8] == kind && Number(h[12..16]) == length
  {
    var h := Head(o, kind, length);
    U32RoundTrip(MAGIC);
    U16RoundTrip(o.format);
    U16RoundTrip(o.semantic);
    U32RoundTrip(length);
    assert h[..4] == U32(MAGIC) && h[4..6] == U16(o.format) && h[6..8] == U16(o.semantic) && h[12..16] == U32(length);
    hide U32, U16, Number;
  }

  /** A cut frame never parses as anything but torn, and a whole one always parses back. */
  lemma ParseCut(o: Options, kind: Byte, payload: seq<Byte>, k: nat, rest: seq<Byte>)
    requires Fits(o, payload) && kind <= MARKER && k <= |Frame(o, kind, payload)|
    ensures 0 < k < |Frame(o, kind, payload)| ==> ParseFrame(o, Frame(o, kind, payload)[..k]) == Torn
    ensures ParseFrame(o, Frame(o, kind, payload) + rest) == Complete(kind, payload, |Frame(o, kind, payload)|)
  {
    var f := Frame(o, kind, payload);
    var h := Head(o, kind, |payload|);
    HeadParts(o, kind, |payload|);
    hide Head, Number;
    var whole := f + rest;
    SameHead(f, whole, h);
    assert whole[HEADER..HEADER + |payload|] == payload;
    assert whole[HEADER + |payload|..HEADER + |payload| + TRAILER] == o.digest(payload);
    if HEADER <= k { SameHead(f, f[..k], h); }
  }

  lemma SameHead(f: seq<Byte>, data: seq<Byte>, h: seq<Byte>)
    requires |h| == HEADER <= |f| && f[..HEADER] == h && HEADER <= |data| && data[..HEADER] == h
    ensures data[..4] == h[..4] && data[4..6] == h[4..6] && data[6..8] == h[6..8] && data[8] == h[8] && data[12..16] == h[12..16]
  {
    assert data[..4] == data[..HEADER][..4] && data[4..6] == data[..HEADER][4..6];
    assert data[6..8] == data[..HEADER][6..8] && data[8] == data[..HEADER][8] && data[12..16] == data[..HEADER][12..16];
  }

  // ---------------------------------------------------------------------
  // Loading a journal.
  // ---------------------------------------------------------------------

  /** The records, how many bytes are kept, and whether a torn tail was dropped. */
  datatype Loaded = Loaded(records: seq<seq<Byte>>, kept: nat, torn: bool) | Refused(code: Reason)

  function Load(o: Options, data: seq<Byte>): (r: Loaded)
    ensures r.Loaded? ==> r.kept <= |data| && (r.torn <==> r.kept < |data|)
    decreases |data|
  {
    match ParseFrame(o, data)
    case End => Loaded([], 0, false)
    case Torn => Loaded([], 0, true)
    case Bad(code) => if |data| <= HEADER then Loaded([], 0, true) else Refused(code)
    case Complete(kind, payload, consumed) =>
      if kind != EVENT then Refused(StoreCorrupt)
      else
        var rest := Load(o, data[consumed..]);
        if rest.Refused? then rest else Loaded([payload] + rest.records, consumed + rest.kept, rest.torn)
  }

  /** The frames of some payloads, one after the other. */
  function Journal(o: Options, payloads: seq<seq<Byte>>): seq<Byte> {
    if payloads == [] then [] else Frame(o, EVENT, payloads[0]) + Journal(o, payloads[1..])
  }

  /** How many whole frames lie before the cut. */
  function Whole(o: Options, payloads: seq<seq<Byte>>, k: nat): (m: nat)
    ensures m <= |payloads|
  {
    if payloads == [] || k < |Frame(o, EVENT, payloads[0])| then 0
    else 1 + Whole(o, payloads[1..], k - |Frame(o, EVENT, payloads[0])|)
  }

  /** Cutting a journal anywhere loses exactly the records not wholly before the cut;
      the file is kept up to the last frame boundary, and a torn tail is reported
      exactly when the cut is not on one. */
  lemma {:induction false} TornTailExact(o: Options, payloads: seq<seq<Byte>>, k: nat)
    requires (forall p :: p in payloads ==> Fits(o, p)) && k <= |Journal(o, payloads)|
    ensures var m := Whole(o, payloads, k);
      var boundary := |Journal(o, payloads[..m])|;
      && boundary <= k
      && Load(o, Journal(o, payloads)[..k]) == Loaded(payloads[..m], boundary, k != boundary)
    decreases |payloads|
  {
    hide ParseFrame, Frame, Fits;
    if payloads == [] {
      EmptyParse(o);
    } else {
      var f := Frame(o, EVENT, payloads[0]);
      var data := Journal(o, payloads)[..k];
      assert payloads[0] in payloads;
      if k < |f| {
        assert data == f[..k];
        ParseCut(o, EVENT, payloads[0], k, []);
        EmptyParse(o);
        assert payloads[..0] == [];
      } else {
        var rest := payloads[1..];
        var tail := Journal(o, rest)[..k - |f|];
        assert data == f + tail && data[|f|..] == tail;
        ParseCut(o, EVENT, payloads[0], 0, tail);
        TornTailExact(o, rest, k - |f|);
        var m := Whole(o, rest, k - |f|);
        assert payloads[..m + 1] == [payloads[0]] + rest[..m];
        assert payloads[..m + 1][1..] == rest[..m];
      }
    }
  }

  lemma EmptyParse(o: Options)
    ensures ParseFrame(o, []) == End
  {
  }

  /** What a load keeps loads again cleanly, with the same records, whatever the bytes. */
  lemma {:induction false} LoadTwice(o: Options, data: seq<Byte>)
    requires Load(o, data).Loaded?
    ensures var r := Load(o, data); Load(o, data[..r.kept]) == Loaded(r.records, r.kept, false)
    decreases |data|
  {
    var p := ParseFrame(o, data);
    var r := Load(o, data);
    if p.Complete? {
      var rest := Load(o, data[p.consumed..]);
      LoadTwice(o, data[p.consumed..]);
      var kept := data[..r.kept];
      PrefixParse(o, data, r.kept);
      hide ParseFrame;
      assert kept[p.consumed..] == data[p.consumed..][..rest.kept];
    } else {
      EmptyParse(o);
      hide ParseFrame;
      assert data[..0] == [];
    }
  }

  /** A whole frame parses the same in any file that still contains it. */
  lemma PrefixParse(o: Options, data: seq<Byte>, k: nat)
    requires ParseFrame(o, data).Complete? && ParseFrame(o, data).consumed <= k <= |data|
    ensures ParseFrame(o, data[..k]) == ParseFrame(o, data)
  {
    var cut := data[..k];
    assert cut[..4] == data[..4] && cut[4..6] == data[4..6] && cut[6..8] == data[6..8] && cut[12..16] == data[12..16];
    var length := Number(data[12..16]);
    assert cut[HEADER..HEADER + length] == data[HEADER..HEADER + length];
    assert cut[HEADER + length..HEADER + length + TRAILER] == data[HEADER + length..HEADER + length + TRAILER];
    hide Number;
  }

  lemma ExtendParse(o: Options, data: seq<Byte>, more: seq<Byte>)
    requires ParseFrame(o, data).Complete?
    ensures ParseFrame(o, data + more) == ParseFrame(o, data)
  {
    var long := data + more;
    assert long[..4] == data[..4] && long[4..6] == data[4..6] && long[6..8] == data[6..8] && long[12..16] == data[12..16];
    var length := Number(data[12..16]);
    assert long[HEADER..HEADER + length] == data[HEADER..HEADER + length];
    assert long[HEADER + length..HEADER + length + TRAILER] == data[HEADER + length..HEADER + length + TRAILER];
    hide Number;
  }

  /** Appending a frame to a clean journal appends its record, whatever is in the file. */
  lemma {:induction false} LoadAppend(o: Options, data: seq<Byte>, payload: seq<Byte>)
    requires Load(o, data).Loaded? && !Load(o, data).torn && Fits(o, payload)
    ensures var r := Load(o, data);
      Load(o, data + Frame(o, EVENT, payload)) == Loaded(r.records + [payload], |data| + |Frame(o, EVENT, payload)|, false)
    decreases |data|
  {
    hide ParseFrame, Frame, Load;
    var f := Frame(o, EVENT, payload);
    var p := ParseFrame(o, data);
    LoadStep(o, data);
    LoadStep(o, data + f);
    if p.Complete? {
      var rest := data[p.consumed..];
      ExtendParse(o, data, f);
      LoadAppend(o, rest, payload);
      assert (data + f)[p.consumed..] == rest + f;
      assert [p.payload] + (Load(o, rest).records + [payload]) == [p.payload] + Load(o, rest).records + [payload];
    } else {
      assert data == [] && data + f == f + [] && (data + f)[|f|..] == [];
      ParseCut(o, EVENT, payload, 0, []);
      LoadStep(o, []);
      EmptyParse(o);
      assert [payload] + [] == [] + [payload];
    }
  }

  // ---------------------------------------------------------------------
  // Snapshots.
  // ---------------------------------------------------------------------

  /** A snapshot file holds nothing or exactly one snapshot record. */
  function LoadSnapshot(o: Options, file: seq<Byte>): Result<Option<seq<Byte>>> {
    match ParseFrame(o, file)
    case End => Ok(None)
    case Torn => Err(StoreTruncated)
    case Bad(code) => Err(code)
    case Complete(kind, payload, consumed) =>
      if kind != SNAPSHOT || consumed != |file| then Err(StoreCorrupt) else Ok(Some(payload))
  }

  /** A snapshot comes back whole or not at all: no cut of it is ever accepted. */
  lemma SnapshotWholeOrRefused(o: Options, payload: seq<Byte>, k: nat)
    requires Fits(o, payload) && k <= |Frame(o, SNAPSHOT, payload)|
    ensures LoadSnapshot(o, Frame(o, SNAPSHOT, payload)[..k]) ==
      if k == 0 then Ok(None)
      else if k < |Frame(o, SNAPSHOT, payload)| then Err(StoreTruncated)
      else Ok(Some(payload))
  {
    var f := Frame(o, SNAPSHOT, payload);
    ParseCut(o, SNAPSHOT, payload, k, []);
    EmptyParse(o);
    assert f + [] == f && f[..|f|] == f;
    hide ParseFrame, Frame;
  }

  // ---------------------------------------------------------------------
  // The store.
  // ---------------------------------------------------------------------

  /** The two files and the counters. `records` is what the journal file holds. */
  class Files {
    const o: Options
    var snapshot: seq<Byte>
    var journal: seq<Byte>
    var journalBytes: nat
    var journalRecords: nat
    ghost var records: seq<seq<Byte>>

    ghost predicate Valid()
      reads this
    {
      Load(o, journal) == Loaded(records, |journal|, false) && |journal| <= journalBytes && journalRecords <= |records|
    }

    constructor (options: Options)
      ensures Valid() && o == options && records == [] && snapshot == []
    {
      o := options;
      snapshot, journal, journalBytes, journalRecords, records := [], [], 0, 0, [];
      new;
      EmptyParse(o);
    }

    /** `append_event`: the record is added whole, or the files are untouched. */
    method Append(payload: seq<Byte>) returns (code: Reason)
      requires Valid() && |payload| < TWO32
      modifies this
      ensures Valid() && snapshot == old(snapshot)
      ensures code == Nominal <==>
        HEADER + |payload| + TRAILER <= o.maxRecord && old(journalBytes) + HEADER + |payload| + TRAILER <= o.maxJournal
      ensures if code == Nominal then records == old(records) + [payload] && journal == old(journal) + Frame(o, EVENT, payload)
              else records == old(records) && journal == old(journal)
    {
      var framed := Frame(o, EVENT, payload);
      if |framed| > o.maxRecord { return StoreRecordOversized; }
      if journalBytes + |framed| > o.maxJournal { return BoundExceeded; }
      LoadAppend(o, journal, payload);
      hide Load, Frame;
      journal := journal + framed;
      journalBytes := journalBytes + |framed|;
      journalRecords := journalRecords + 1;
      records := records + [payload];
      return Nominal;
    }

    /** `rotate`, first half: the snapshot file is replaced in one step. */
    method ReplaceSnapshot(payload: seq<Byte>) returns (code: Reason)
      requires Valid() && |payload| < TWO32
      modifies this
      ensures Valid() && records == old(records) && journal == old(journal)
      ensures if HEADER + |payload| + TRAILER <= o.maxRecord
              then code == Nominal && LoadSnapshot(o, snapshot) == Ok(Some(payload))
              else code == StoreRecordOversized && snapshot == old(snapshot)
    {
      hide Load;
      var framed := Frame(o, SNAPSHOT, payload);
      if |framed| > o.maxRecord { return StoreRecordOversized; }
      SnapshotWholeOrRefused(o, payload, |framed|);
      assert framed[..|framed|] == framed;
      snapshot := framed;
      return Nominal;
    }

    /** `rotate`, second half: the journal is emptied. */
    method EmptyJournal()
      requires Valid()
      modifies this
      ensures Valid() && records == [] && journal == [] && journalBytes == 0 && snapshot == old(snapshot)
    {
      EmptyParse(o);
      journal, journalBytes, journalRecords, records := [], 0, 0, [];
    }

    /** `open` and `load` on the journal file a crash left: the size is taken before the
        torn tail is cut off, and the record count starts at zero. */
    method Recover(file: seq<Byte>) returns (loaded: Loaded)
      modifies this
      ensures loaded == Load(o, file) && snapshot == old(snapshot)
      ensures if loaded.Loaded?
              then Valid() && journal == file[..loaded.kept] && records == loaded.records && journalBytes == |file| && journalRecords == 0
              else unchanged(this)
    {
      loaded := LoadJournal(o, file);
      if loaded.Loaded? {
        LoadTwice(o, file);
        hide Load;
        journal, records, journalBytes, journalRecords := file[..loaded.kept], loaded.records, |file|, 0;
      }
    }
  }

  /** The loop of `load`, frame by frame. */
  method LoadJournal(o: Options, raw: seq<Byte>) returns (r: Loaded)
    ensures r == Load(o, raw)
  {
    hide ParseFrame, Load;
    var offset: nat, records: seq<seq<Byte>> := 0, [];
    assert raw[0..] == raw;
    assert Load(o, raw).Loaded? ==> [] + Load(o, raw).records == Load(o, raw).records;
    while offset < |raw|
      invariant offset <= |raw|
      invariant Load(o, raw) == After(records, offset, Load(o, raw[offset..]))
      decreases |raw| - offset
    {
      ghost var here := raw[offset..];
      LoadStep(o, here);
      var p := ParseFrame(o, raw[offset..]);
      if p.Complete? {
        if p.kind != EVENT { return Refused(StoreCorrupt); }
        assert here[p.consumed..] == raw[offset + p.consumed..];
        ghost var rest := Load(o, raw[offset + p.consumed..]);
        assert rest.Loaded? ==> records + ([p.payload] + rest.records) == records + [p.payload] + rest.records;
        records := records + [p.payload];
        offset := offset + p.consumed;
      } else {
        var atTail := p.Torn? || offset + HEADER >= |raw|;
        if !atTail { return Refused(p.code); }
        assert records + [] == records;
        return Loaded(records, offset, true);
      }
    }
    EmptyParse(o);
    LoadStep(o, []);
    assert raw[offset..] == [];
    assert records + [] == records;
    return Loaded(records, offset, false);
  }

  function After(records: seq<seq<Byte>>, offset: nat, r: Loaded): Loaded {
    if r.Refused? then r else Loaded(records + r.records, offset + r.kept, r.torn)
  }

  lemma LoadStep(o: Options, data: seq<Byte>)
    ensures var p := ParseFrame(o, data);
      Load(o, data) ==
        if p.End? then Loaded([], 0, false)
        else if p.Torn? then Loaded([], 0, true)
        else if p.Bad? then (if |data| <= HEADER then Loaded([], 0, true) else Refused(p.code))
        else if p.kind != EVENT then Refused(StoreCorrupt)
        else After([p.payload], p.consumed, Load(o, data[p.consumed..]))
  {
    hide ParseFrame;
  }
}
