/**
 * `StorageService` (services/storage_service.py): the stored candidate list
 * with upsert by id. The JSON file is modelled as the list it holds; the
 * clock readings are parameters.
 */
module StorageService {
  import opened Wrappers
  import opened Text

  /** A stored candidate: its `id` and `timestamp` keys, and the rest of its fields. */
  datatype CandidateRecord = CandidateRecord(id: Option<string>, timestamp: Option<string>, fields: map<string, string>)

  /** `f"cand_{seconds}_{count}"` */
  function GeneratedId(seconds: nat, count: nat): string {
    "cand_" + NatToString(seconds) + "_" + NatToString(count)
  }

  /** A generated id reads back as its clock reading and list length. */
  lemma {:induction false} GeneratedIdDecodes(seconds: nat, count: nat)
    ensures var parts := SplitOn(GeneratedId(seconds, count), '_');
            |parts| == 3 && parts[0] == "cand"
            && AllDigits(parts[1]) && ParseNat(parts[1]) == seconds
            && AllDigits(parts[2]) && ParseNat(parts[2]) == count
  {
    var a := NatToString(seconds);
    var b := NatToString(count);
    var parts := ["cand", a, b];
    DigitsHaveNoSeparator(a, '_');
    DigitsHaveNoSeparator(b, '_');
    assert JoinWith("_", parts[2..]) == b;
    assert JoinWith("_", parts[1..]) == a + "_" + b;
    assert JoinWith("_", parts) == GeneratedId(seconds, count);
    SplitJoin(parts, '_');
    ParseNatToString(seconds);
    ParseNatToString(count);
  }

  /** The record with a missing id and a missing timestamp filled in. */
  function Filled(data: CandidateRecord, seconds: nat, isoNow: string, count: nat): (r: CandidateRecord)
    ensures r.id.Some? && r.timestamp.Some?
  {
    data.(id := if data.id.Some? then data.id else Some(GeneratedId(seconds, count)),
          timestamp := if data.timestamp.Some? then data.timestamp else Some(isoNow))
  }

  /** Filling keeps an existing id and timestamp and every other field. */
  lemma FilledKeepsGiven(data: CandidateRecord, seconds: nat, isoNow: string, count: nat)
    ensures var r := Filled(data, seconds, isoNow, count);
            (data.id.Some? ==> r.id == data.id)
            && (data.id.None? ==> r.id == Some(GeneratedId(seconds, count)))
            && (data.timestamp.Some? ==> r.timestamp == data.timestamp)
            && (data.timestamp.None? ==> r.timestamp == Some(isoNow))
            && r.fields == data.fields
  {
  }

  predicate HasId(c: CandidateRecord, id: Option<string>) { c.id == id }

  /** The index of the first stored record whose id equals `id`. */
  function FirstWithId(candidates: seq<CandidateRecord>, id: Option<string>): (r: Option<nat>)
    ensures r.Some? ==> r.value < |candidates| && candidates[r.value].id == id
                        && forall j :: 0 <= j < r.value ==> candidates[j].id != id
    ensures r.None? ==> forall j :: 0 <= j < |candidates| ==> candidates[j].id != id
  {
    FirstWhere(candidates, c => HasId(c, id))
  }

  /** The list after storing `rec`: the first record with its id replaced, or `rec` appended. */
  function Upserted(candidates: seq<CandidateRecord>, rec: CandidateRecord): seq<CandidateRecord> {
    match FirstWithId(candidates, rec.id)
    case Some(i) => candidates[i := rec]
    case None => candidates + [rec]
  }

  /**
   * With a stored record of the same id, the first such record is replaced,
   * the length is unchanged and every other record stays as it was.
   */
  lemma UpsertReplacesFirst(candidates: seq<CandidateRecord>, rec: CandidateRecord, i: nat)
    requires i < |candidates| && candidates[i].id == rec.id
    requires forall j :: 0 <= j < i ==> candidates[j].id != rec.id
    ensures var r := Upserted(candidates, rec);
            |r| == |candidates| && r[i] == rec
            && forall j :: 0 <= j < |r| && j != i ==> r[j] == candidates[j]
  {
    FirstWhereAt(candidates, c => HasId(c, rec.id), i);
  }

  /** Without a stored record of the same id, `rec` is appended and the length grows by one. */
  lemma UpsertAppends(candidates: seq<CandidateRecord>, rec: CandidateRecord)
    requires forall j :: 0 <= j < |candidates| ==> candidates[j].id != rec.id
    ensures Upserted(candidates, rec) == candidates + [rec]
    ensures |Upserted(candidates, rec)| == |candidates| + 1
  {
  }

  /** No two records carry the same present id. */
  predicate UniqueIds(candidates: seq<CandidateRecord>) {
    forall i, j :: 0 <= i < j < |candidates| && candidates[i].id.Some? ==> candidates[i].id != candidates[j].id
  }

  /** Upserting a record with an id keeps the ids unique, and the record is in the list. */
  lemma UpsertKeepsIdsUnique(candidates: seq<CandidateRecord>, rec: CandidateRecord)
    requires UniqueIds(candidates) && rec.id.Some?
    ensures UniqueIds(Upserted(candidates, rec))
    ensures rec in Upserted(candidates, rec)
  {
    var r := Upserted(candidates, rec);
    match FirstWithId(candidates, rec.id)
    case Some(k) =>
      assert r[k] == rec;
      forall i, j | 0 <= i < j < |r| && r[i].id.Some? ensures r[i].id != r[j].id {
        if i == k {
          assert r[j] == candidates[j];
        } else if j == k {
          assert r[i] == candidates[i];
        } else {
          assert r[i] == candidates[i] && r[j] == candidates[j];
        }
      }
    case None =>
      assert r[|candidates|] == rec;
      forall i, j | 0 <= i < j < |r| && r[i].id.Some? ensures r[i].id != r[j].id {
        assert r[i] == candidates[i];
      }
  }

  class CandidateStore {
    /** The list the candidates file holds. */
    var candidates: seq<CandidateRecord>

    constructor ()
      ensures candidates == []
    {
      candidates := [];
    }

    /** The scan for the first stored record with the given id. */
    method FindIndex(id: Option<string>) returns (index: Option<nat>)
      ensures index == FirstWithId(candidates, id)
    {
      index := None;
      var i := 0;
      while i < |candidates|
        invariant 0 <= i <= |candidates|
        invariant forall j :: 0 <= j < i ==> candidates[j].id != id
      {
        if candidates[i].id == id {
          FirstWhereAt(candidates, c => HasId(c, id), i);
          return Some(i);
        }
        i := i + 1;
      }
      return None;
    }

    /**
     * `save_candidate`: fills the id and timestamp, replaces the first stored
     * record with the same id or appends, and returns the stored record.
     */
    method SaveCandidate(data: CandidateRecord, seconds: nat, isoNow: string) returns (saved: CandidateRecord)
      modifies this
      ensures saved == Filled(data, seconds, isoNow, |old(candidates)|)
      ensures candidates == Upserted(old(candidates), saved)
    {
      saved := data;
      if saved.id.None? {
        saved := saved.(id := Some(GeneratedId(seconds, |candidates|)));
      }
      if saved.timestamp.None? {
        saved := saved.(timestamp := Some(isoNow));
      }
      var existing := FindIndex(saved.id);
      if existing.Some? {
        candidates := candidates[existing.value := saved];
      } else {
        candidates := candidates + [saved];
      }
    }

    /** `clear_candidates` */
    method Clear()
      modifies this
      ensures candidates == []
    {
      candidates := [];
    }
  }
}
