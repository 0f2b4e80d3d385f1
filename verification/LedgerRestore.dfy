/** Restoring a resource ledger (pkg/op/graph.go:529-645) and minting after it (pkg/op/resource_catalog.go:866-884). */
module LedgerRestore {
  import opened Modular
  import opened Options

  type Blob = int

  /** An intent row: a ledger id and a resource URI. */
  datatype Row = Row(id: string, uri: string)

  datatype Content = Content(uri: string, blob: Blob)

  /** How a resource was rebuilt. */
  datatype Resource = Unpacked(uri: string, blob: Blob) | Constructed(uri: string)

  datatype Error =
    | BadUri(uri: string)
    | Unpackable(uri: string)
    | Unconstructible(uri: string)
    | Orphans(uris: set<string>)

  datatype Result<+T> = Ok(value: T) | Err(error: Error)

  /** What the registries can do: split a URI, unpack a blob, construct from a URI. */
  datatype Registry = Registry(splits: string -> bool, unpacks: (string, Blob) -> bool, constructs: string -> bool)

  // ----- Ledger ids -----

  predicate IsDigit(c: char) { '0' <= c <= '9' }

  function DigitValue(c: char): (v: nat)
    requires IsDigit(c)
    ensures v <= 9
  {
    (c - '0') as int
  }

  function Digit(v: nat): (c: char)
    requires v <= 9
    ensures IsDigit(c) && DigitValue(c) == v
  {
    '0' + v as char
  }

  predicate AllDigits(s: string) {
    forall i :: 0 <= i < |s| ==> IsDigit(s[i])
  }

  function Digits(s: string): nat
    requires AllDigits(s)
  {
    if s == "" then 0 else 10 * Digits(s[..|s|-1]) + DigitValue(s[|s|-1])
  }

  /** strconv.Atoi: an optional sign, at least one digit, within 64 bits. */
  function Atoi(s: string): Option<int> {
    var signed := s != "" && (s[0] == '-' || s[0] == '+');
    var digits := if signed then s[1..] else s;
    if digits == "" || !AllDigits(digits) then None
    else
      var d: int := Digits(digits);
      var v := if signed && s[0] == '-' then -d else d;
      if IsInt64(v) then Some(v) else None
  }

  /** %d. */
  function Decimal(v: int): string {
    if v < 0 then "-" + Numeral(-v) else Numeral(v)
  }

  function Numeral(v: nat): (s: string)
    ensures s != "" && AllDigits(s)
  {
    if v < 10 then [Digit(v)] else Numeral(v / 10) + [Digit(v % 10)]
  }

  lemma {:induction false} NumeralRoundTrip(v: nat)
    ensures Digits(Numeral(v)) == v
    decreases v
  {
    if v >= 10 {
      NumeralRoundTrip(v / 10);
      assert Numeral(v)[..|Numeral(v)|-1] == Numeral(v / 10);
    } else {
      assert Numeral(v)[..0] == "";
    }
  }

  const PREFIX := "res-"

  /** The id the catalog mints for a counter value. */
  function MintedID(n: int): string {
    PREFIX + Decimal(n)
  }

  /** parseLedgerID. */
  function ParseLedgerID(id: string): Option<int> {
    if PREFIX <= id then Atoi(id[|PREFIX|..]) else None
  }

  lemma AtoiDecimal(n: int)
    requires IsInt64(n)
    ensures Atoi(Decimal(n)) == Some(n)
  {
    hide Numeral, Digits;
    if n < 0 {
      NumeralRoundTrip(-n);
      assert Decimal(n)[1..] == Numeral(-n);
    } else {
      NumeralRoundTrip(n);
      assert IsDigit(Numeral(n)[0]);
    }
  }

  /** Every minted id parses back to its counter value. */
  lemma MintedParses(n: int)
    requires IsInt64(n)
    ensures ParseLedgerID(MintedID(n)) == Some(n)
  {
    hide Atoi, Decimal;
    assert MintedID(n)[|PREFIX|..] == Decimal(n);
    AtoiDecimal(n);
  }

  /** A numeral is read in base ten. */
  lemma DigitsMean(s: string, c: char)
    requires AllDigits(s) && '0' <= c <= '9'
    ensures AllDigits(s + [c]) && Digits(s + [c]) == 10 * Digits(s) + (c as int - '0' as int)
    ensures Digits("") == 0
  {
    assert (s + [c])[..|s|] == s;
  }

  /** A minted id is the prefix and the canonical numeral: no leading zero, a minus for a negative, nothing else. */
  lemma {:induction false} MintedIsCanonical(n: int)
    ensures n >= 0 ==> MintedID(n) == "res-" + Numeral(n)
    ensures n < 0 ==> MintedID(n) == "res--" + Numeral(-n)
    ensures var v: nat := if n < 0 then -n else n;
            AllDigits(Numeral(v)) && Digits(Numeral(v)) == v && (v > 0 ==> Numeral(v)[0] != '0') && Numeral(0) == "0"
  {
    var v: nat := if n < 0 then -n else n;
    NumeralRoundTrip(v);
    NoLeadingZero(v);
    assert "res-" + ("-" + Numeral(v)) == "res--" + Numeral(v);
  }

  lemma {:induction false} NoLeadingZero(v: nat)
    ensures v > 0 ==> Numeral(v)[0] != '0'
    decreases v
  {
    if v >= 10 {
      NoLeadingZero(v / 10);
    } else if v > 0 {
      assert DigitValue(Digit(v)) == v;
    }
  }

  /** An id is read exactly when it is the prefix, at most one sign, and digits of a number that fits in 64 bits. */
  lemma IdsRead(digits: string)
    requires digits != "" && AllDigits(digits)
    ensures ParseLedgerID("res-" + digits) ==
              if Digits(digits) <= 0x7FFF_FFFF_FFFF_FFFF then Some(Digits(digits)) else None
    ensures ParseLedgerID("res-+" + digits) ==
              if Digits(digits) <= 0x7FFF_FFFF_FFFF_FFFF then Some(Digits(digits)) else None
    ensures var d: int := Digits(digits);
            ParseLedgerID("res--" + digits) == if d <= 0x8000_0000_0000_0000 then Some(-d) else None
  {
    hide Digits;
    assert ("res-" + digits)[4..] == digits;
    assert ("res-+" + digits)[4..] == "+" + digits && ("+" + digits)[1..] == digits;
    assert ("res--" + digits)[4..] == "-" + digits && ("-" + digits)[1..] == digits;
  }

  lemma OnlyIdsRead(id: string)
    requires ParseLedgerID(id).Some?
    ensures exists digits :: digits != "" && AllDigits(digits) &&
              (id == "res-" + digits || id == "res-+" + digits || id == "res--" + digits)
  {
    hide Digits;
    var rest := id[4..];
    assert id == "res-" + rest;
    if rest[0] == '-' || rest[0] == '+' {
      assert rest == [rest[0]] + rest[1..];
      assert id == "res-" + [rest[0]] + rest[1..];
    }
  }

  // ----- The restored rows -----

  /** The blobs by URI; a URI given twice keeps its last blob. */
  function Blobs(content: seq<Content>): map<string, Blob> {
    if content == [] then map[]
    else Blobs(content[..|content|-1])[content[|content|-1].uri := content[|content|-1].blob]
  }

  /** reconstructIntentRow: with a blob for the row's URI it is unpacked, and the blob is used up. */
  function Reconstruct(reg: Registry, row: Row, blobs: map<string, Blob>): Result<(Resource, map<string, Blob>)> {
    if !reg.splits(row.uri) then Err(BadUri(row.uri))
    else if row.uri in blobs then
      if reg.unpacks(row.uri, blobs[row.uri]) then Ok((Unpacked(row.uri, blobs[row.uri]), blobs - {row.uri}))
      else Err(Unpackable(row.uri))
    else if reg.constructs(row.uri) then Ok((Constructed(row.uri), blobs))
    else Err(Unconstructible(row.uri))
  }

  datatype Progress = Progress(resources: seq<Resource>, blobs: map<string, Blob>)

  function RestoreRows(reg: Registry, rows: seq<Row>, blobs: map<string, Blob>): Result<Progress> {
    if rows == [] then Ok(Progress([], blobs))
    else
      match RestoreRows(reg, rows[..|rows|-1], blobs)
      case Err(e) => Err(e)
      case Ok(p) =>
        match Reconstruct(reg, rows[|rows|-1], p.blobs)
        case Err(e) => Err(e)
        case Ok(one) => Ok(Progress(p.resources + [one.0], one.1))
  }

  /** The counter after the rows, in Go's int. */
  function NextID(rows: seq<Row>): (n: int)
    ensures IsInt64(n)
  {
    if rows == [] then 0
    else
      var before := NextID(rows[..|rows|-1]);
      match ParseLedgerID(rows[|rows|-1].id)
      case None => before
      case Some(n) => if n >= before then Wrap64(n + 1) else before
  }

  // ----- The catalog as the source writes it -----

  datatype State = Pending | Active | Gone

  datatype Entry = Entry(id: string, resource: Resource)

  class ResourceCatalog {
    var entries: seq<Entry>
    var byID: map<string, nat>
    var states: map<string, State>
    var nextID: int

    ghost predicate Valid()
      reads this
    {
      && (forall id :: id in byID ==> byID[id] < |entries| && entries[byID[id]].id == id)
      && (forall i :: 0 <= i < |entries| ==> entries[i].id in byID && byID[entries[i].id] >= i)
      && IsInt64(nextID)
    }

    constructor ()
      ensures Valid() && entries == [] && byID == map[] && states == map[] && nextID == 0
    {
      entries, byID, states, nextID := [], map[], map[], 0;
    }

    /** restoreEntry: the id is kept; a repeated id points at its last entry. */
    method RestoreEntry(id: string, resource: Resource, state: State)
      requires Valid()
      modifies this
      ensures Valid() && entries == old(entries) + [Entry(id, resource)] && nextID == old(nextID)
      ensures byID == old(byID)[id := |old(entries)|] && states == old(states)[id := state]
    {
      byID := byID[id := |entries|];
      entries := entries + [Entry(id, resource)];
      states := states[id := state];
    }

    /** catalogLocked: the next id. */
    method Catalog(resource: Resource) returns (id: string)
      requires Valid()
      modifies this
      ensures Valid() && nextID == Wrap64(old(nextID) + 1) && id == MintedID(nextID)
      ensures entries == old(entries) + [Entry(id, resource)] && states == old(states)
      ensures byID == old(byID)[id := |old(entries)|]
    {
      nextID := Wrap64(nextID + 1);
      id := MintedID(nextID);
      byID := byID[id := |entries|];
      entries := entries + [Entry(id, resource)];
    }
  }

  /** The entries a catalog gets from the rows. */
  function Entries(rows: seq<Row>, resources: seq<Resource>): seq<Entry>
    requires |rows| == |resources|
  {
    seq(|rows|, i requires 0 <= i < |rows| => Entry(rows[i].id, resources[i]))
  }

  /** Every row's id stands as Pending. */
  ghost predicate AllPending(rows: seq<Row>, states: map<string, State>) {
    forall i :: 0 <= i < |rows| ==> rows[i].id in states && states[rows[i].id] == Pending
  }

  /** What a successful load leaves. */
  ghost predicate Restored(rows: seq<Row>, resources: seq<Resource>, entries: seq<Entry>, states: map<string, State>) {
    |resources| == |rows| && entries == Entries(rows, resources) && AllPending(rows, states)
  }

  /** unpackCatalog; the catalog is meaningful only when there is no error. */
  method UnpackCatalog(reg: Registry, rows: seq<Row>, content: seq<Content>)
    returns (catalog: ResourceCatalog, error: Option<Error>)
    ensures fresh(catalog)
    ensures var r := RestoreRows(reg, rows, Blobs(content));
            if r.Err? then error == Some(r.error)
            else if r.value.blobs.Keys != {} then error == Some(Orphans(r.value.blobs.Keys))
            else
              && error.None? && catalog.Valid() && catalog.nextID == NextID(rows)
              && Restored(rows, r.value.resources, catalog.entries, catalog.states)
  {
    hide RestoreRows, NextID, ParseLedgerID, Blobs, Reconstruct, Restored;
    catalog := new ResourceCatalog();
    var blobs := IndexBlobs(content);
    var nextID := 0;
    ghost var resources: seq<Resource> := [];
    NoRows(reg, Blobs(content));
    var i := 0;
    while i < |rows|
      invariant 0 <= i <= |rows| && catalog.Valid() && fresh(catalog)
      invariant RestoreRows(reg, rows[..i], Blobs(content)) == Ok(Progress(resources, blobs))
      invariant Restored(rows[..i], resources, catalog.entries, catalog.states) && nextID == NextID(rows[..i])
      modifies catalog
    {
      RowPush(reg, rows, Blobs(content), i);
      var one := Reconstruct(reg, rows[i], blobs);
      if one.Err? {
        FirstError(reg, rows, Blobs(content), i + 1);
        return catalog, Some(one.error);
      }
      RestoredPush(rows, resources, catalog.entries, catalog.states, i, one.value.0);
      blobs := one.value.1;
      resources := resources + [one.value.0];
      catalog.RestoreEntry(rows[i].id, one.value.0, Pending);
      var n := ParseLedgerID(rows[i].id);
      if n.Some? && n.value >= nextID {
        nextID := Wrap64(n.value + 1);
      }
      i := i + 1;
    }
    assert rows[..i] == rows;
    if |blobs| > 0 {
      assert blobs.Keys != {};
      return catalog, Some(Orphans(blobs.Keys));
    }
    assert blobs.Keys == {};
    catalog.nextID := nextID;
    return catalog, None;
  }

  lemma RestoredPush(rows: seq<Row>, resources: seq<Resource>, entries: seq<Entry>, states: map<string, State>, i: nat,
                     one: Resource)
    requires i < |rows| && Restored(rows[..i], resources, entries, states)
    ensures Restored(rows[..i + 1], resources + [one], entries + [Entry(rows[i].id, one)],
                     states[rows[i].id := Pending])
  {
    assert rows[..i + 1][..i] == rows[..i] && rows[..i + 1][i] == rows[i];
    assert Entries(rows[..i + 1], resources + [one]) == Entries(rows[..i], resources) + [Entry(rows[i].id, one)];
    forall k | 0 <= k < i + 1
      ensures rows[k].id in states[rows[i].id := Pending] && states[rows[i].id := Pending][rows[k].id] == Pending
    {
      if k < i {
        assert rows[..i][k] == rows[k];
      }
    }
  }

  lemma NoRows(reg: Registry, blobs: map<string, Blob>)
    ensures RestoreRows(reg, [], blobs) == Ok(Progress([], blobs)) && Restored([], [], [], map[]) && NextID([]) == 0
  {
  }

  /** One row more. */
  lemma RowPush(reg: Registry, rows: seq<Row>, blobs: map<string, Blob>, i: nat)
    requires i < |rows| && RestoreRows(reg, rows[..i], blobs).Ok?
    ensures var p := RestoreRows(reg, rows[..i], blobs).value;
            var one := Reconstruct(reg, rows[i], p.blobs);
            RestoreRows(reg, rows[..i + 1], blobs) ==
              if one.Err? then Err(one.error) else Ok(Progress(p.resources + [one.value.0], one.value.1))
    ensures var n := ParseLedgerID(rows[i].id);
            NextID(rows[..i + 1]) ==
              if n.Some? && n.value >= NextID(rows[..i]) then Wrap64(n.value + 1) else NextID(rows[..i])
  {
    hide Reconstruct, ParseLedgerID;
    assert rows[..i + 1][..i] == rows[..i];
  }

  method IndexBlobs(content: seq<Content>) returns (blobs: map<string, Blob>)
    ensures blobs == Blobs(content)
  {
    blobs := map[];
    var i := 0;
    while i < |content|
      invariant 0 <= i <= |content| && blobs == Blobs(content[..i])
    {
      assert content[..i + 1][..i] == content[..i];
      blobs := blobs[content[i].uri := content[i].blob];
      i := i + 1;
    }
    assert content[..i] == content;
  }

  lemma {:induction false} FirstError(reg: Registry, rows: seq<Row>, blobs: map<string, Blob>, k: nat)
    requires k <= |rows| && RestoreRows(reg, rows[..k], blobs).Err?
    ensures RestoreRows(reg, rows, blobs) == RestoreRows(reg, rows[..k], blobs)
    decreases |rows| - k
  {
    if k < |rows| {
      assert rows[..k + 1][..k] == rows[..k];
      FirstError(reg, rows, blobs, k + 1);
    } else {
      assert rows[..k] == rows;
    }
  }

  // ----- What restoring means -----

  predicate First(rows: seq<Row>, i: nat)
    requires i < |rows|
  {
    forall j :: 0 <= j < i ==> rows[j].uri != rows[i].uri
  }

  /** The i-th row's resource: its URI's blob goes to the first row that names it. */
  function ResourceOf(rows: seq<Row>, blobs: map<string, Blob>, i: nat): Resource
    requires i < |rows|
  {
    var uri := rows[i].uri;
    if uri in blobs && First(rows, i) then Unpacked(uri, blobs[uri]) else Constructed(uri)
  }

  predicate RowWorks(reg: Registry, rows: seq<Row>, blobs: map<string, Blob>, i: nat)
    requires i < |rows|
  {
    var r := ResourceOf(rows, blobs, i);
    reg.splits(rows[i].uri) && if r.Unpacked? then reg.unpacks(r.uri, r.blob) else reg.constructs(r.uri)
  }

  ghost predicate RowsWork(reg: Registry, rows: seq<Row>, blobs: map<string, Blob>) {
    forall i :: 0 <= i < |rows| ==> RowWorks(reg, rows, blobs, i)
  }

  function Uris(rows: seq<Row>): set<string> {
    set i | 0 <= i < |rows| :: rows[i].uri
  }

  lemma {:induction false} RowsMean(reg: Registry, rows: seq<Row>, blobs: map<string, Blob>)
    ensures var r := RestoreRows(reg, rows, blobs);
            && (r.Ok? <==> RowsWork(reg, rows, blobs))
            && (r.Ok? ==> |r.value.resources| == |rows| && r.value.blobs == blobs - Uris(rows))
            && (r.Ok? ==> forall i :: 0 <= i < |rows| ==> r.value.resources[i] == ResourceOf(rows, blobs, i))
    decreases |rows|
  {
    if rows != [] {
      var n := |rows| - 1;
      var init := rows[..n];
      RowsMean(reg, init, blobs);
      forall i | 0 <= i < n
        ensures ResourceOf(init, blobs, i) == ResourceOf(rows, blobs, i)
        ensures RowWorks(reg, init, blobs, i) == RowWorks(reg, rows, blobs, i)
      {
        assert First(init, i) == First(rows, i);
      }
      assert RowsWork(reg, rows, blobs) <==> RowsWork(reg, init, blobs) && RowWorks(reg, rows, blobs, n);
      LastUri(rows);
    } else {
      assert blobs - Uris(rows) == blobs;
    }
  }

  /** Why a row cannot be rebuilt: its URI, or what was to be done with it. */
  function Complaint(reg: Registry, rows: seq<Row>, blobs: map<string, Blob>, i: nat): Error
    requires i < |rows|
  {
    var uri := rows[i].uri;
    if !reg.splits(uri) then BadUri(uri)
    else if uri in blobs && First(rows, i) then Unpackable(uri) else Unconstructible(uri)
  }

  /** A load whose rows cannot all be rebuilt fails at the first that cannot. */
  lemma {:induction false} RestoreFailsFirst(reg: Registry, rows: seq<Row>, blobs: map<string, Blob>) returns (k: nat)
    requires !RowsWork(reg, rows, blobs)
    ensures k < |rows| && !RowWorks(reg, rows, blobs, k)
    ensures forall i :: 0 <= i < k ==> RowWorks(reg, rows, blobs, i)
    ensures RestoreRows(reg, rows, blobs) == Err(Complaint(reg, rows, blobs, k))
    decreases |rows|
  {
    hide RowWorks, Complaint, Reconstruct;
    var n := |rows| - 1;
    var init := rows[..n];
    forall i | 0 <= i < n
      ensures RowWorks(reg, init, blobs, i) == RowWorks(reg, rows, blobs, i)
      ensures Complaint(reg, init, blobs, i) == Complaint(reg, rows, blobs, i)
    {
      SameRow(reg, rows, blobs, i);
    }
    if RowsWork(reg, init, blobs) {
      k := n;
      RowsMean(reg, init, blobs);
      LastUri(rows);
      RowComplains(reg, rows, blobs);
    } else {
      k := RestoreFailsFirst(reg, init, blobs);
    }
  }

  lemma SameRow(reg: Registry, rows: seq<Row>, blobs: map<string, Blob>, i: nat)
    requires i < |rows| - 1
    ensures RowWorks(reg, rows[..|rows|-1], blobs, i) == RowWorks(reg, rows, blobs, i)
    ensures Complaint(reg, rows[..|rows|-1], blobs, i) == Complaint(reg, rows, blobs, i)
  {
    assert First(rows[..|rows|-1], i) == First(rows, i);
  }

  lemma RowComplains(reg: Registry, rows: seq<Row>, blobs: map<string, Blob>)
    requires rows != [] && !RowWorks(reg, rows, blobs, |rows| - 1)
    ensures var n := |rows| - 1;
            Reconstruct(reg, rows[n], blobs - Uris(rows[..n])) == Err(Complaint(reg, rows, blobs, n))
  {
    LastUri(rows);
  }

  lemma LastUri(rows: seq<Row>)
    requires rows != []
    ensures var n := |rows| - 1;
            && Uris(rows) == Uris(rows[..n]) + {rows[n].uri}
            && (First(rows, n) <==> rows[n].uri !in Uris(rows[..n]))
  {
    var n := |rows| - 1;
    forall x | x in Uris(rows) ensures x in Uris(rows[..n]) + {rows[n].uri} {
      var i :| 0 <= i < |rows| && rows[i].uri == x;
      if i < n {
        assert rows[..n][i].uri == x;
      }
    }
    forall x | x in Uris(rows[..n]) ensures x in Uris(rows) && (x == rows[n].uri ==> !First(rows, n)) {
      var i :| 0 <= i < n && rows[..n][i].uri == x;
      assert rows[i].uri == x;
    }
    if !First(rows, n) {
      var j :| 0 <= j < n && rows[j].uri == rows[n].uri;
      assert rows[..n][j].uri == rows[n].uri;
    }
  }

  /** The blobs by URI are the last ones given. */
  lemma {:induction false} LastBlobWins(content: seq<Content>, i: nat)
    requires i < |content| && forall j :: i < j < |content| ==> content[j].uri != content[i].uri
    ensures content[i].uri in Blobs(content) && Blobs(content)[content[i].uri] == content[i].blob
    decreases |content|
  {
    var n := |content| - 1;
    if i < n {
      LastBlobWins(content[..n], i);
    }
  }

  function ContentUris(content: seq<Content>): set<string> {
    set i | 0 <= i < |content| :: content[i].uri
  }

  lemma {:induction false} BlobUris(content: seq<Content>)
    ensures Blobs(content).Keys == ContentUris(content)
    decreases |content|
  {
    if content != [] {
      var n := |content| - 1;
      BlobUris(content[..n]);
      assert content[n].uri in ContentUris(content);
      forall x | x in ContentUris(content[..n]) ensures x in ContentUris(content) {
        var i :| 0 <= i < n && content[..n][i].uri == x;
        assert content[i].uri == x;
      }
      forall x | x in ContentUris(content) ensures x in ContentUris(content[..n]) || x == content[n].uri {
        var i :| 0 <= i < |content| && content[i].uri == x;
        assert i < n ==> content[..n][i].uri == x;
      }
    }
  }

  /**
   Loading succeeds if and only if every row can be rebuilt and every content URI is named by some row; then each blob
   went to exactly one row, the first with its URI, and the other rows of that URI were constructed without it.
   */
  lemma RestoreExactly(reg: Registry, rows: seq<Row>, content: seq<Content>)
    ensures var blobs := Blobs(content);
            var r := RestoreRows(reg, rows, blobs);
            && (r.Ok? && r.value.blobs.Keys == {} <==>
                 RowsWork(reg, rows, blobs) && ContentUris(content) <= Uris(rows))
            && (r.Ok? ==>
                 && |r.value.resources| == |rows|
                 && (forall i :: 0 <= i < |rows| ==> r.value.resources[i] == ResourceOf(rows, blobs, i))
                 && (forall i, j | 0 <= i < j < |rows| ::
                       r.value.resources[i].Unpacked? && r.value.resources[j].Unpacked? ==>
                       r.value.resources[i].uri != r.value.resources[j].uri))
  {
    hide RowsWork, RestoreRows, Blobs, Uris, ContentUris;
    var blobs := Blobs(content);
    RowsMean(reg, rows, blobs);
    BlobUris(content);
    assert (blobs - Uris(rows)).Keys == blobs.Keys - Uris(rows);
    NothingLeft(blobs.Keys, Uris(rows));
  }

  lemma NothingLeft(a: set<string>, b: set<string>)
    ensures a - b == {} <==> a <= b
  {
    if a - b == {} {
      forall x | x in a ensures x in b {
        assert x !in a - b;
      }
    }
  }

  // ----- Fresh ids -----

  predicate NoLargestID(rows: seq<Row>) {
    forall i :: 0 <= i < |rows| ==> ParseLedgerID(rows[i].id) != Some(MAX_INT64)
  }

  predicate AboveAll(rows: seq<Row>, next: int) {
    forall i :: 0 <= i < |rows| ==> ParseLedgerID(rows[i].id).Some? ==> ParseLedgerID(rows[i].id).value < next
  }

  lemma {:induction false} CounterClimbs(rows: seq<Row>)
    requires NoLargestID(rows)
    ensures AboveAll(rows, NextID(rows)) && NextID(rows) >= 0
    decreases |rows|
  {
    hide ParseLedgerID;
    if rows != [] {
      var n := |rows| - 1;
      var init := rows[..n];
      forall i | 0 <= i < n ensures ParseLedgerID(init[i].id) != Some(MAX_INT64) {
        assert init[i] == rows[i];
      }
      CounterClimbs(init);
      assert forall i :: 0 <= i < n ==> init[i] == rows[i];
      ParsedIsInt64(rows[n].id);
      match ParseLedgerID(rows[n].id)
      case None =>
      case Some(m) => 
        assert ParseLedgerID(rows[n].id) != Some(MAX_INT64);
        WrapIs(m + 1, 0);
    }
  }

  lemma ParsedIsInt64(id: string)
    ensures ParseLedgerID(id).Some? ==> IsInt64(ParseLedgerID(id).value)
  {
  }

  /** The restored counter is above every restored id if and only if no row carries the largest one. */
  lemma CounterExactly(rows: seq<Row>)
    ensures AboveAll(rows, NextID(rows)) <==> NoLargestID(rows)
  {
    hide ParseLedgerID;
    if NoLargestID(rows) {
      CounterClimbs(rows);
    } else {
      var i :| 0 <= i < |rows| && ParseLedgerID(rows[i].id) == Some(MAX_INT64);
      assert NextID(rows) <= MAX_INT64;
    }
  }

  /** Then no id minted after the restore equals a restored one, or another minted one. */
  lemma MintedIdsAreFresh(rows: seq<Row>, k: nat, i: nat, m: nat)
    requires NoLargestID(rows) && 1 <= k && NextID(rows) + k <= MAX_INT64 && i < |rows|
    requires 1 <= m && NextID(rows) + m <= MAX_INT64 && m != k
    ensures MintedID(NextID(rows) + k) != rows[i].id
    ensures MintedID(NextID(rows) + k) != MintedID(NextID(rows) + m)
  {
    hide ParseLedgerID, MintedID;
    CounterClimbs(rows);
    MintedParses(NextID(rows) + k);
    MintedParses(NextID(rows) + m);
    assert ParseLedgerID(rows[i].id).Some? ==> ParseLedgerID(rows[i].id).value < NextID(rows);
  }

  /** The last row that carries the largest id, -1 when there is none. */
  function LastLargest(rows: seq<Row>): (i: int)
    ensures -1 <= i < |rows|
  {
    if rows == [] then -1
    else
      var n := |rows| - 1;
      if ParseLedgerID(rows[n].id) == Some(MAX_INT64) then n else LastLargest(rows[..n])
  }

  lemma {:induction false} LastLargestIs(rows: seq<Row>)
    ensures var last := LastLargest(rows);
            && (last >= 0 ==> ParseLedgerID(rows[last].id) == Some(MAX_INT64))
            && (forall j :: last < j < |rows| ==> ParseLedgerID(rows[j].id) != Some(MAX_INT64))
    decreases |rows|
  {
    hide ParseLedgerID;
    if rows != [] {
      LastLargestIs(rows[..|rows|-1]);
      assert forall j :: 0 <= j < |rows| - 1 ==> rows[..|rows|-1][j] == rows[j];
    }
  }

  /**
   The counter is decided by the rows after the last one with the largest id, which wraps it: it is above all of those
   and one more than one of them, or where it starts.
   */
  lemma {:induction false} CounterIs(rows: seq<Row>)
    ensures var last, next := LastLargest(rows), NextID(rows);
            && (forall i :: last < i < |rows| && ParseLedgerID(rows[i].id).Some? ==>
                ParseLedgerID(rows[i].id).value < next)
            && ((next == if last < 0 then 0 else -MAX_INT64 - 1)
                || exists i :: last < i < |rows| && ParseLedgerID(rows[i].id) == Some(next - 1))
    decreases |rows|
  {
    hide ParseLedgerID;
    if rows != [] {
      var n := |rows| - 1;
      var init := rows[..n];
      CounterIs(init);
      ParsedIsInt64(rows[n].id);
      assert forall i :: 0 <= i < n ==> init[i] == rows[i];
      match ParseLedgerID(rows[n].id)
      case None =>
      case Some(m) =>
        if m == MAX_INT64 {
          WrapIs(m + 1, 1);
        } else {
          WrapIs(m + 1, 0);
          if m >= NextID(init) {
            assert ParseLedgerID(rows[n].id) == Some(NextID(rows) - 1);
          }
        }
    }
  }

  /** Every id minted after the restore, as long as the counter does not wrap, is unlike every restored one. */
  ghost predicate Fresh(rows: seq<Row>) {
    forall n, i :: NextID(rows) < n <= MAX_INT64 && 0 <= i < |rows| ==> MintedID(n) != rows[i].id
  }

  /** The row's id is the very one that is minted for a number the counter has yet to reach. */
  predicate Reissued(rows: seq<Row>, i: nat)
    requires i < |rows|
  {
    var n := ParseLedgerID(rows[i].id);
    n.Some? && n.value > NextID(rows) && rows[i].id == MintedID(n.value)
  }

  /**
   Minted ids are fresh if and only if no row up to the last one with the largest id carries an id that is still to be
   minted.  Rows after it, and so all rows where none has the largest id, never do.
   */
  lemma FreshExactly(rows: seq<Row>)
    ensures Fresh(rows) <==> forall i :: 0 <= i <= LastLargest(rows) ==> !Reissued(rows, i)
  {
    hide ParseLedgerID, MintedID, NextID, LastLargest;
    var next := NextID(rows);
    CounterIs(rows);
    if i: nat :| i <= LastLargest(rows) && Reissued(rows, i) {
      ParsedIsInt64(rows[i].id);
      assert MintedID(ParseLedgerID(rows[i].id).value) == rows[i].id;
    } else {
      forall n, i | next < n <= MAX_INT64 && 0 <= i < |rows| ensures MintedID(n) != rows[i].id {
        MintedParses(n);
        assert MintedID(n) == rows[i].id ==> Reissued(rows, i);
      }
    }
  }

  /** With the largest id among the rows the counter wraps, and a later row can set it below an earlier one. */
  lemma LargestIdCollides()
    ensures var rows := [Row(MintedID(7), "a"), Row(MintedID(MAX_INT64), "b"), Row(MintedID(5), "c")];
            NextID(rows) == 6 && MintedID(NextID(rows) + 1) == rows[0].id
  {
    hide ParseLedgerID, MintedID;
    var a, b, c := Row(MintedID(7), "a"), Row(MintedID(MAX_INT64), "b"), Row(MintedID(5), "c");
    MintedParses(7);
    MintedParses(MAX_INT64);
    MintedParses(5);
    WrapIs(8, 0);
    WrapIs(MAX_INT64 + 1, 1);
    WrapIs(6, 0);
    assert [a][..0] == [] && [a, b][..1] == [a] && [a, b, c][..2] == [a, b];
    assert NextID([a]) == 8;
    assert NextID([a, b]) == -MAX_INT64 - 1;
  }
}
