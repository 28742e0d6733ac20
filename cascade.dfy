/** The server's two cascading deletes, `DELETE /outings/:id` and
    `DELETE /locations/:id`, over an in-memory copy of the tables they
    touch. Each SQL statement either fails, changing nothing, or runs
    whole; which statements fail is an input. */
module Cascade {
  import opened Common

  datatype LocationRec = LocationRec(id: int)
  datatype OutingRec = OutingRec(id: int, locationId: Option<int>)
  datatype CatchRec = CatchRec(id: int, outingId: int)
  /** A catch, scenery or location image, with the id of what it shows. */
  datatype ImageRec = ImageRec(id: int, ownerId: int)

  /** The six tables the deletes read and write. */
  datatype Tables = Tables(locations: seq<LocationRec>, outings: seq<OutingRec>,
                           catches: seq<CatchRec>, catchImages: seq<ImageRec>,
                           sceneryImages: seq<ImageRec>, locationImages: seq<ImageRec>)

  /** The statements the deletes issue. */
  datatype Step =
    | DisableKeyChecks
    | CatchImagesOfOuting    // select the outing's catch ids, delete their images
    | CatchesOfOuting
    | SceneryImagesOfOuting
    | OutingRow
    | DetachOutings          // set `location_id = NULL` on the location's outings
    | LocationImagesOf
    | LocationRow

  /** The `queries` array of the outing delete, in order. */
  const OutingSteps: seq<Step> := [CatchImagesOfOuting, CatchesOfOuting, SceneryImagesOfOuting, OutingRow]

  /** The three nested statements of the location delete, in order. */
  const LocationSteps: seq<Step> := [DetachOutings, LocationImagesOf, LocationRow]

  /** The rows of `s` that `keep` accepts, in their order: a `DELETE ...
      WHERE` removes the others. */
  function Filter<T(!new)>(s: seq<T>, keep: T -> bool): (r: seq<T>)
    ensures forall x :: x in r <==> x in s && keep(x)
    ensures |r| <= |s|
  {
    if s == [] then []
    else
      var rest := Filter(s[1..], keep);
      assert forall x :: x in s[1..] ==> x in s;
      if keep(s[0]) then [s[0]] + rest
      else
        assert s[0] in s;
        rest
  }

  function OutingIds(outings: seq<OutingRec>): set<int> {
    set o | o in outings :: o.id
  }

  function CatchIds(catches: seq<CatchRec>): set<int> {
    set c | c in catches :: c.id
  }

  function LocationIds(locations: seq<LocationRec>): set<int> {
    set l | l in locations :: l.id
  }

  /** `SELECT catch_id FROM catches WHERE outing_id = ?`. */
  function CatchIdsOf(catches: seq<CatchRec>, outingId: int): set<int> {
    set c | c in catches && c.outingId == outingId :: c.id
  }

  /** `UPDATE outings SET location_id = NULL WHERE location_id = ?`: every
      outing is kept, in place, and none refers to the location any more. */
  function Detach(outings: seq<OutingRec>, locationId: int): (r: seq<OutingRec>)
    ensures |r| == |outings|
    ensures forall i :: 0 <= i < |r| ==> r[i].id == outings[i].id && r[i].locationId != Some(locationId)
    ensures forall i :: 0 <= i < |r| && outings[i].locationId != Some(locationId) ==> r[i] == outings[i]
    ensures forall i :: 0 <= i < |r| && outings[i].locationId == Some(locationId) ==> r[i].locationId.None?
  {
    if outings == [] then []
    else
      var o := outings[0];
      [if o.locationId == Some(locationId) then o.(locationId := None) else o]
        + Detach(outings[1..], locationId)
  }

  /** One statement's effect; `key` is the id from the route. */
  function Apply(t: Tables, key: int, step: Step): Tables {
    match step
    case DisableKeyChecks => t
    case CatchImagesOfOuting =>
      var ids := CatchIdsOf(t.catches, key);
      t.(catchImages := Filter(t.catchImages, (im: ImageRec) => im.ownerId !in ids))
    case CatchesOfOuting => t.(catches := Filter(t.catches, (c: CatchRec) => c.outingId != key))
    case SceneryImagesOfOuting =>
      t.(sceneryImages := Filter(t.sceneryImages, (im: ImageRec) => im.ownerId != key))
    case OutingRow => t.(outings := Filter(t.outings, (o: OutingRec) => o.id != key))
    case DetachOutings => t.(outings := Detach(t.outings, key))
    case LocationImagesOf =>
      t.(locationImages := Filter(t.locationImages, (im: ImageRec) => im.ownerId != key))
    case LocationRow => t.(locations := Filter(t.locations, (l: LocationRec) => l.id != key))
  }

  /** The tables after the given statements, in order, all succeeding. */
  function Run(t: Tables, key: int, steps: seq<Step>): Tables {
    if steps == [] then t else Apply(Run(t, key, steps[..|steps| - 1]), key, steps[|steps| - 1])
  }

  /** The position of the first statement that fails, or the length when
      none does. */
  function FirstFault(steps: seq<Step>, faults: set<Step>): (k: nat)
    ensures k <= |steps|
    ensures forall j :: 0 <= j < k ==> steps[j] !in faults
    ensures k < |steps| ==> steps[k] in faults
  {
    if steps == [] || steps[0] in faults then 0 else 1 + FirstFault(steps[1..], faults)
  }

  /** Every reference points at a row that exists. */
  predicate Consistent(t: Tables) {
    && (forall o :: o in t.outings && o.locationId.Some? ==> o.locationId.value in LocationIds(t.locations))
    && (forall c :: c in t.catches ==> c.outingId in OutingIds(t.outings))
    && (forall im :: im in t.catchImages ==> im.ownerId in CatchIds(t.catches))
    && (forall im :: im in t.sceneryImages ==> im.ownerId in OutingIds(t.outings))
    && (forall im :: im in t.locationImages ==> im.ownerId in LocationIds(t.locations))
  }

  class Database {
    var locations: seq<LocationRec>
    var outings: seq<OutingRec>
    var catches: seq<CatchRec>
    var catchImages: seq<ImageRec>
    var sceneryImages: seq<ImageRec>
    var locationImages: seq<ImageRec>

    function Snapshot(): Tables
      reads this
    {
      Tables(locations, outings, catches, catchImages, sceneryImages, locationImages)
    }

    constructor (t: Tables)
      ensures Snapshot() == t
    {
      locations, outings, catches := t.locations, t.outings, t.catches;
      catchImages, sceneryImages, locationImages := t.catchImages, t.sceneryImages, t.locationImages;
    }

    /** Runs one statement that succeeds. */
    method Execute(key: int, step: Step)
      modifies this
      ensures Snapshot() == Apply(old(Snapshot()), key, step)
    {
      match step
      case DisableKeyChecks =>
      case CatchImagesOfOuting =>
        var ids := CatchIdsOf(catches, key);
        catchImages := Filter(catchImages, (im: ImageRec) => im.ownerId !in ids);
      case CatchesOfOuting => catches := Filter(catches, (c: CatchRec) => c.outingId != key);
      case SceneryImagesOfOuting => sceneryImages := Filter(sceneryImages, (im: ImageRec) => im.ownerId != key);
      case OutingRow => outings := Filter(outings, (o: OutingRec) => o.id != key);
      case DetachOutings => outings := Detach(outings, key);
      case LocationImagesOf => locationImages := Filter(locationImages, (im: ImageRec) => im.ownerId != key);
      case LocationRow => locations := Filter(locations, (l: LocationRec) => l.id != key);
    }

    /** `DELETE /outings/:id`: foreign key checks off, then the four steps in
        order, stopping at the first that fails with a 500; success does
        not depend on whether the outing existed. `ran` lists the
        statements attempted. */
    method DeleteOuting(outingId: int, faults: set<Step>) returns (status: int, ran: seq<Step>)
      modifies this
      ensures DisableKeyChecks in faults ==>
                status == 500 && ran == [DisableKeyChecks] && Snapshot() == old(Snapshot())
      ensures DisableKeyChecks !in faults ==>
                var k := FirstFault(OutingSteps, faults);
                && ran == [DisableKeyChecks] + OutingSteps[..if k < |OutingSteps| then k + 1 else k]
                && Snapshot() == Run(old(Snapshot()), outingId, OutingSteps[..k])
                && (status == 200 <==> k == |OutingSteps|)
                && (status == 500 <==> k < |OutingSteps|)
    {
      ran := [DisableKeyChecks];
      if DisableKeyChecks in faults {
        return 500, ran;
      }
      ghost var t0 := Snapshot();
      var index := 0;
      while index < |OutingSteps|
        invariant 0 <= index <= |OutingSteps|
        invariant forall j :: 0 <= j < index ==> OutingSteps[j] !in faults
        invariant Snapshot() == Run(t0, outingId, OutingSteps[..index])
      {
        var step := OutingSteps[index];
        if step in faults {
          ran := [DisableKeyChecks] + OutingSteps[..index + 1];
          assert FirstFault(OutingSteps, faults) == index;
          return 500, ran;
        }
        Execute(outingId, step);
        RunNext(t0, outingId, OutingSteps, index);
        index := index + 1;
      }
      assert FirstFault(OutingSteps, faults) == |OutingSteps|;
      ran := [DisableKeyChecks] + OutingSteps;
      status := 200;
    }

    /** `DELETE /locations/:id`: detach the outings, delete the location's
        images, delete the location; a failure stops the chain with a 500,
        and a 404 comes only at the end, when no location row was
        deleted. `ran` lists the statements attempted. */
    method DeleteLocation(locationId: int, faults: set<Step>) returns (status: int, ran: seq<Step>)
      modifies this
      ensures DetachOutings in faults ==>
                status == 500 && ran == [DetachOutings] && Snapshot() == old(Snapshot())
      ensures DetachOutings !in faults && LocationImagesOf in faults ==>
                && status == 500 && ran == [DetachOutings, LocationImagesOf]
                && Snapshot() == Apply(old(Snapshot()), locationId, DetachOutings)
      ensures DetachOutings !in faults && LocationImagesOf !in faults && LocationRow in faults ==>
                && status == 500 && ran == LocationSteps
                && Snapshot() == Run(old(Snapshot()), locationId, LocationSteps[..2])
      ensures DetachOutings !in faults && LocationImagesOf !in faults && LocationRow !in faults ==>
                && ran == LocationSteps
                && Snapshot() == Run(old(Snapshot()), locationId, LocationSteps)
                && (status == 404 <==> locationId !in LocationIds(old(locations)))
                && (status == 200 <==> locationId in LocationIds(old(locations)))
    {
      ghost var t0 := Snapshot();
      if DetachOutings in faults {
        return 500, [DetachOutings];
      }
      Execute(locationId, DetachOutings);
      if LocationImagesOf in faults {
        return 500, [DetachOutings, LocationImagesOf];
      }
      Execute(locationId, LocationImagesOf);
      ghost var t2 := Snapshot();
      RunPair(t0, locationId, DetachOutings, LocationImagesOf);
      assert LocationSteps[..2] == [DetachOutings, LocationImagesOf];
      ran := LocationSteps;
      if LocationRow in faults {
        return 500, ran;
      }
      var before := |locations|;
      Execute(locationId, LocationRow);
      RunNext(t0, locationId, LocationSteps, 2);
      assert LocationSteps[..3] == LocationSteps;
      assert t2.locations == t0.locations;
      assert locations == Filter(t0.locations, (l: LocationRec) => l.id != locationId);
      FilterLength(t0.locations, (l: LocationRec) => l.id != locationId);
      if locationId in LocationIds(t0.locations) {
        var l :| l in t0.locations && l.id == locationId;
      }
      status := if |locations| == before then 404 else 200;
    }
  }

  lemma RunNext(t: Tables, key: int, steps: seq<Step>, n: nat)
    requires n < |steps|
    ensures Run(t, key, steps[..n + 1]) == Apply(Run(t, key, steps[..n]), key, steps[n])
  {
    assert steps[..n + 1][..n] == steps[..n];
  }

  lemma RunPair(t: Tables, key: int, a: Step, b: Step)
    ensures Run(t, key, [a, b]) == Apply(Apply(t, key, a), key, b)
  {
    assert [a, b][..1] == [a];
    assert [a][..0] == [];
    assert Run(t, key, [a]) == Apply(t, key, a);
  }

  lemma {:induction false} FilterLength<T(!new)>(s: seq<T>, keep: T -> bool)
    ensures |Filter(s, keep)| == |s| <==> forall x :: x in s ==> keep(x)
  {
    if s != [] {
      FilterLength(s[1..], keep);
      assert forall x :: x in s[1..] ==> x in s;
      assert s[0] in s;
    }
  }

  lemma FilterAll<T(!new)>(s: seq<T>, keep: T -> bool)
    requires forall x :: x in s ==> keep(x)
    ensures Filter(s, keep) == s
  {
    FilterLength(s, keep);
    if s != [] {
      assert forall x :: x in s[1..] ==> x in s;
      FilterAll(s[1..], keep);
    }
  }

  /** Without catches the outing's first step changes nothing (the source
      then skips the image delete altogether). */
  lemma NoCatchesNoImageDelete(t: Tables, outingId: int)
    requires forall c :: c in t.catches ==> c.outingId != outingId
    ensures Apply(t, outingId, CatchImagesOfOuting) == t
  {
    assert CatchIdsOf(t.catches, outingId) == {};
    FilterAll(t.catchImages, (im: ImageRec) => im.ownerId !in CatchIdsOf(t.catches, outingId));
  }

  /** The states after each prefix of the outing delete. */
  lemma OutingPrefixes(t: Tables, id: int)
    ensures Run(t, id, OutingSteps[..0]) == t
    ensures Run(t, id, OutingSteps[..1]) == Apply(t, id, CatchImagesOfOuting)
    ensures Run(t, id, OutingSteps[..2]) == Apply(Run(t, id, OutingSteps[..1]), id, CatchesOfOuting)
    ensures Run(t, id, OutingSteps[..3]) == Apply(Run(t, id, OutingSteps[..2]), id, SceneryImagesOfOuting)
    ensures Run(t, id, OutingSteps[..4]) == Apply(Run(t, id, OutingSteps[..3]), id, OutingRow)
  {
    assert OutingSteps[..0] == [];
    RunNext(t, id, OutingSteps, 0);
    RunNext(t, id, OutingSteps, 1);
    RunNext(t, id, OutingSteps, 2);
    RunNext(t, id, OutingSteps, 3);
  }

  lemma CatchImagesStep(t: Tables, id: int)
    requires Consistent(t)
    ensures var u := Apply(t, id, CatchImagesOfOuting);
            && Consistent(u) && u.catches == t.catches
            && (forall im :: im in u.catchImages ==> im.ownerId !in CatchIdsOf(t.catches, id))
  {
  }

  lemma CatchesStep(t: Tables, id: int)
    requires Consistent(t)
    requires forall im :: im in t.catchImages ==> im.ownerId !in CatchIdsOf(t.catches, id)
    ensures var u := Apply(t, id, CatchesOfOuting);
            Consistent(u) && (forall c :: c in u.catches ==> c.outingId != id)
  {
    var u := Apply(t, id, CatchesOfOuting);
    forall im | im in u.catchImages ensures im.ownerId in CatchIds(u.catches) {
      var c :| c in t.catches && c.id == im.ownerId;
      assert c.id !in CatchIdsOf(t.catches, id);
      assert c.outingId != id;
      assert c in u.catches;
    }
  }

  lemma SceneryStep(t: Tables, id: int)
    requires Consistent(t)
    ensures var u := Apply(t, id, SceneryImagesOfOuting);
            && Consistent(u) && u.catches == t.catches
            && (forall im :: im in u.sceneryImages ==> im.ownerId != id)
  {
  }

  lemma OutingRowStep(t: Tables, id: int)
    requires Consistent(t)
    requires forall c :: c in t.catches ==> c.outingId != id
    requires forall im :: im in t.sceneryImages ==> im.ownerId != id
    ensures var u := Apply(t, id, OutingRow);
            Consistent(u) && (forall o :: o in u.outings ==> o.id != id)
  {
    var u := Apply(t, id, OutingRow);
    forall c | c in u.catches ensures c.outingId in OutingIds(u.outings) {
      var o :| o in t.outings && o.id == c.outingId;
      assert o in u.outings;
    }
    forall im | im in u.sceneryImages ensures im.ownerId in OutingIds(u.outings) {
      var o :| o in t.outings && o.id == im.ownerId;
      assert o in u.outings;
    }
  }

  /** The outing delete never leaves a dangling reference, wherever it
      stops: the steps go from the leaves up. */
  lemma {:induction false} OutingDeleteConsistent(t: Tables, id: int, n: nat)
    requires Consistent(t) && n <= |OutingSteps|
    ensures Consistent(Run(t, id, OutingSteps[..n]))
  {
    OutingPrefixes(t, id);
    if n > 0 {
      CatchImagesStep(t, id);
      var t1 := Run(t, id, OutingSteps[..1]);
      if n > 1 {
        CatchesStep(t1, id);
        var t2 := Run(t, id, OutingSteps[..2]);
        if n > 2 {
          SceneryStep(t2, id);
          if n > 3 {
            OutingRowStep(Run(t, id, OutingSteps[..3]), id);
          }
        }
      }
    }
  }

  /** A complete outing delete removes exactly the outing, its catches,
      their images and its scenery images; every other row stays. */
  lemma OutingDeleteEffect(t: Tables, id: int)
    ensures var u := Run(t, id, OutingSteps);
            && (forall o :: o in u.outings <==> o in t.outings && o.id != id)
            && (forall c :: c in u.catches <==> c in t.catches && c.outingId != id)
            && (forall im :: im in u.catchImages <==>
                  im in t.catchImages && im.ownerId !in CatchIdsOf(t.catches, id))
            && (forall im :: im in u.sceneryImages <==> im in t.sceneryImages && im.ownerId != id)
            && u.locations == t.locations && u.locationImages == t.locationImages
  {
    OutingPrefixes(t, id);
    assert OutingSteps[..4] == OutingSteps;
  }

  /** The states after each prefix of the location delete. */
  lemma LocationPrefixes(t: Tables, id: int)
    ensures Run(t, id, LocationSteps[..0]) == t
    ensures Run(t, id, LocationSteps[..1]) == Apply(t, id, DetachOutings)
    ensures Run(t, id, LocationSteps[..2]) == Apply(Run(t, id, LocationSteps[..1]), id, LocationImagesOf)
    ensures Run(t, id, LocationSteps[..3]) == Apply(Run(t, id, LocationSteps[..2]), id, LocationRow)
  {
    assert LocationSteps[..0] == [];
    RunNext(t, id, LocationSteps, 0);
    RunNext(t, id, LocationSteps, 1);
    RunNext(t, id, LocationSteps, 2);
  }

  /** Detaching keeps the set of outing ids. */
  lemma DetachIds(outings: seq<OutingRec>, locationId: int)
    ensures OutingIds(Detach(outings, locationId)) == OutingIds(outings)
  {
    var r := Detach(outings, locationId);
    forall x | x in OutingIds(outings) ensures x in OutingIds(r) {
      var i :| 0 <= i < |outings| && outings[i].id == x;
      assert r[i] in r;
    }
    forall x | x in OutingIds(r) ensures x in OutingIds(outings) {
      var i :| 0 <= i < |r| && r[i].id == x;
      assert outings[i] in outings;
    }
  }

  /** Detaching only clears references. */
  lemma DetachRefs(outings: seq<OutingRec>, id: int, known: set<int>)
    requires forall o :: o in outings && o.locationId.Some? ==> o.locationId.value in known
    ensures forall o :: o in Detach(outings, id) && o.locationId.Some? ==> o.locationId.value in known
  {
    var r := Detach(outings, id);
    forall o | o in r && o.locationId.Some? ensures o.locationId.value in known {
      var i :| 0 <= i < |r| && r[i] == o;
      assert outings[i] in outings;
    }
  }

  lemma DetachStep(t: Tables, id: int)
    requires Consistent(t)
    ensures var u := Apply(t, id, DetachOutings);
            Consistent(u) && (forall o :: o in u.outings ==> o.locationId != Some(id))
  {
    DetachIds(t.outings, id);
    DetachRefs(t.outings, id, LocationIds(t.locations));
    var r := Detach(t.outings, id);
    forall o | o in r ensures o.locationId != Some(id) {
      var i :| 0 <= i < |r| && r[i] == o;
    }
  }

  lemma LocationImagesStep(t: Tables, id: int)
    requires Consistent(t)
    ensures var u := Apply(t, id, LocationImagesOf);
            && Consistent(u) && u.outings == t.outings
            && (forall im :: im in u.locationImages ==> im.ownerId != id)
  {
  }

  lemma LocationRowStep(t: Tables, id: int)
    requires Consistent(t)
    requires forall o :: o in t.outings ==> o.locationId != Some(id)
    requires forall im :: im in t.locationImages ==> im.ownerId != id
    ensures Consistent(Apply(t, id, LocationRow))
  {
    var u := Apply(t, id, LocationRow);
    forall o | o in u.outings && o.locationId.Some?
      ensures o.locationId.value in LocationIds(u.locations)
    {
      var l :| l in t.locations && l.id == o.locationId.value;
      assert l in u.locations;
    }
    forall im | im in u.locationImages ensures im.ownerId in LocationIds(u.locations) {
      var l :| l in t.locations && l.id == im.ownerId;
      assert l in u.locations;
    }
  }

  /** The location delete never leaves a dangling reference, wherever it
      stops. */
  lemma {:induction false} LocationDeleteConsistent(t: Tables, id: int, n: nat)
    requires Consistent(t) && n <= |LocationSteps|
    ensures Consistent(Run(t, id, LocationSteps[..n]))
  {
    LocationPrefixes(t, id);
    if n > 0 {
      DetachStep(t, id);
      if n > 1 {
        var t1 := Run(t, id, LocationSteps[..1]);
        LocationImagesStep(t1, id);
        if n > 2 {
          LocationRowStep(Run(t, id, LocationSteps[..2]), id);
        }
      }
    }
  }

  /** A complete location delete keeps every outing, in place, with the
      reference to the location cleared, and removes the location and its
      images; catches and their images are untouched. */
  lemma LocationDeleteEffect(t: Tables, id: int)
    ensures var u := Run(t, id, LocationSteps);
            && |u.outings| == |t.outings|
            && (forall i :: 0 <= i < |u.outings| ==>
                  u.outings[i].id == t.outings[i].id && u.outings[i].locationId != Some(id))
            && (forall i :: 0 <= i < |u.outings| && t.outings[i].locationId != Some(id) ==>
                  u.outings[i] == t.outings[i])
            && (forall l :: l in u.locations <==> l in t.locations && l.id != id)
            && (forall im :: im in u.locationImages <==> im in t.locationImages && im.ownerId != id)
            && u.catches == t.catches && u.catchImages == t.catchImages
            && u.sceneryImages == t.sceneryImages
  {
    LocationPrefixes(t, id);
    assert LocationSteps[..3] == LocationSteps;
  }
}
