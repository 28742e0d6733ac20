/** The outing log form's catch rows and the photos waiting to be uploaded
    for them, and the edits the form makes to both. Every edit builds a new
    list or map from the previous one. A row's local id comes from the
    clock when the row is made; the model takes it as an argument, and the
    lemmas that need it require it to differ from the ids in use. */
module OutingDraft {

  /** A photo chosen for upload: its bytes and its MIME type. */
  datatype Photo = Photo(bytes: seq<bv8>, mimeType: string)

  datatype PendingImage = PendingImage(file: Photo, caption: string)

  datatype Catch = Catch(species: string, count: int, notes: string, localId: string)

  /** The catch rows, the photos waiting for each row (by local id), and
      whether the catch section is shown. */
  datatype Draft = Draft(catches: seq<Catch>, pending: map<string, seq<PendingImage>>,
                         showCatches: bool)

  /** One field of a catch row set to a new value. */
  datatype Edit = SetSpecies(species: string) | SetCount(count: int) | SetNotes(notes: string)

  /** A fresh row: no species, a count of one, no notes. */
  function Blank(localId: string): Catch {
    Catch("", 1, "", localId)
  }

  /** The form as it first appears. */
  function Initial(localId: string): Draft {
    Draft([Blank(localId)], map[], false)
  }

  function Ids(catches: seq<Catch>): set<string> {
    set c | c in catches :: c.localId
  }

  /** `list.filter((_, i) => i !== index)`: the list without that position;
      an index outside the list removes nothing. */
  function RemoveAt<T>(s: seq<T>, index: int): (r: seq<T>)
    ensures 0 <= index < |s| ==> |r| == |s| - 1
    ensures 0 <= index < |s| ==> forall k :: 0 <= k < |r| ==> r[k] == (if k < index then s[k] else s[k + 1])
    ensures !(0 <= index < |s|) ==> r == s
  {
    if 0 <= index < |s| then s[..index] + s[index + 1..] else s
  }

  /** What the form keeps true: at least one row, distinct local ids, and
      photo lists only for existing rows and never empty. */
  predicate Valid(d: Draft) {
    && |d.catches| >= 1
    && (forall i, j :: 0 <= i < j < |d.catches| ==> d.catches[i].localId != d.catches[j].localId)
    && (forall id :: id in d.pending ==> id in Ids(d.catches) && |d.pending[id]| > 0)
  }

  lemma InitialValid(localId: string)
    ensures Valid(Initial(localId))
  {
  }

  /** `addCatch`: a blank row at the end. */
  function AddCatch(d: Draft, localId: string): (r: Draft)
    ensures |r.catches| == |d.catches| + 1 && r.catches[..|d.catches|] == d.catches
    ensures r.catches[|d.catches|] == Blank(localId)
    ensures r.pending == d.pending && r.showCatches == d.showCatches
  {
    d.(catches := d.catches + [Blank(localId)])
  }

  /** `handleCaughtSomething`: show the section, with a blank row if there
      is none. */
  function CaughtSomething(d: Draft, localId: string): (r: Draft)
    ensures r.showCatches && r.pending == d.pending
    ensures |d.catches| > 0 ==> r.catches == d.catches
    ensures |d.catches| == 0 ==> r.catches == [Blank(localId)]
  {
    d.(showCatches := true, catches := if |d.catches| == 0 then [Blank(localId)] else d.catches)
  }

  /** `{ ...row, [field]: value }`. */
  function ApplyEdit(c: Catch, e: Edit): (r: Catch)
    ensures r.localId == c.localId
    ensures r.species == (if e.SetSpecies? then e.species else c.species)
    ensures r.count == (if e.SetCount? then e.count else c.count)
    ensures r.notes == (if e.SetNotes? then e.notes else c.notes)
  {
    match e
    case SetSpecies(s) => c.(species := s)
    case SetCount(n) => c.(count := n)
    case SetNotes(s) => c.(notes := s)
  }

  /** `handleCatchChange`: only the named field of that row changes. */
  function ChangeCatch(d: Draft, index: nat, e: Edit): (r: Draft)
    requires index < |d.catches|
    ensures |r.catches| == |d.catches| && r.catches[index] == ApplyEdit(d.catches[index], e)
    ensures forall k :: 0 <= k < |r.catches| && k != index ==> r.catches[k] == d.catches[k]
    ensures r.pending == d.pending && r.showCatches == d.showCatches
  {
    d.(catches := d.catches[index := ApplyEdit(d.catches[index], e)])
  }

  /** `handleNoCatches`: hide the section, one blank row, no photos. */
  function NoCatches(d: Draft, localId: string): (r: Draft)
    ensures r == Initial(localId)
  {
    Draft([Blank(localId)], map[], false)
  }

  /** `removeCatch`: removing the only row resets the section; otherwise
      the row goes, the others keep their order, and only its photos are
      dropped. */
  function RemoveCatch(d: Draft, index: nat, localId: string): (r: Draft)
    requires index < |d.catches|
    ensures |d.catches| == 1 ==> r == Initial(localId)
    ensures |d.catches| > 1 ==>
              && r.catches == RemoveAt(d.catches, index)
              && r.pending == d.pending - {d.catches[index].localId}
              && r.showCatches == d.showCatches
  {
    var next := RemoveAt(d.catches, index);
    if |next| == 0 then Draft([Blank(localId)], map[], false)
    else d.(catches := next, pending := d.pending - {d.catches[index].localId})
  }

  /** The photos waiting for a row (`prev[id] || []`). */
  function PendingFor(d: Draft, localId: string): seq<PendingImage> {
    if localId in d.pending then d.pending[localId] else []
  }

  /** `savePendingImage`: the photo goes to the end of that row's list, its
      caption defaulting to the empty text; other rows' lists stay. */
  function SavePendingImage(d: Draft, localId: string, file: Photo, caption: string): (r: Draft)
    ensures PendingFor(r, localId) == PendingFor(d, localId) + [PendingImage(file, caption)]
    ensures forall id :: id != localId ==> (id in r.pending <==> id in d.pending)
    ensures forall id :: id != localId && id in d.pending ==> r.pending[id] == d.pending[id]
    ensures r.catches == d.catches && r.showCatches == d.showCatches
  {
    d.(pending := d.pending[localId := PendingFor(d, localId) + [PendingImage(file, caption)]])
  }

  /** `removePendingImage`: one photo goes; a list left empty is deleted. */
  function RemovePendingImage(d: Draft, localId: string, imageIndex: int): (r: Draft)
    ensures var list := RemoveAt(PendingFor(d, localId), imageIndex);
            && (list == [] ==> r.pending == d.pending - {localId})
            && (list != [] ==> r.pending == d.pending[localId := list])
    ensures localId in r.pending ==> |r.pending[localId]| > 0
    ensures forall id :: id != localId ==> (id in r.pending <==> id in d.pending)
    ensures forall id :: id != localId && id in d.pending ==> r.pending[id] == d.pending[id]
    ensures r.catches == d.catches && r.showCatches == d.showCatches
  {
    var list := RemoveAt(PendingFor(d, localId), imageIndex);
    if |list| == 0 then d.(pending := d.pending - {localId})
    else d.(pending := d.pending[localId := list])
  }

  /** Adding a row with an unused id keeps the form valid. */
  lemma AddCatchValid(d: Draft, localId: string)
    requires Valid(d) && localId !in Ids(d.catches)
    ensures Valid(AddCatch(d, localId))
  {
    var r := AddCatch(d, localId);
    assert forall i :: 0 <= i < |d.catches| ==> d.catches[i].localId in Ids(d.catches);
    assert forall id :: id in Ids(d.catches) ==> id in Ids(r.catches) by {
      forall id | id in Ids(d.catches) ensures id in Ids(r.catches) {
        var c :| c in d.catches && c.localId == id;
        assert c in r.catches;
      }
    }
  }

  /** Editing a field keeps the form valid: ids never change. */
  lemma ChangeCatchValid(d: Draft, index: nat, e: Edit)
    requires Valid(d) && index < |d.catches|
    ensures Valid(ChangeCatch(d, index, e))
  {
    var r := ChangeCatch(d, index, e);
    forall id | id in Ids(d.catches) ensures id in Ids(r.catches) {
      var k :| 0 <= k < |d.catches| && d.catches[k].localId == id;
      assert r.catches[k] in r.catches;
    }
  }

  /** Removing a row keeps the form valid: the only photo list that could
      point at it is dropped with it. */
  lemma RemoveCatchValid(d: Draft, index: nat, localId: string)
    requires Valid(d) && index < |d.catches|
    ensures Valid(RemoveCatch(d, index, localId))
  {
    if |d.catches| > 1 {
      var r := RemoveCatch(d, index, localId);
      forall id | id in r.pending ensures id in Ids(r.catches) {
        var k :| 0 <= k < |d.catches| && d.catches[k].localId == id;
        assert k != index;
        var m := if k < index then k else k - 1;
        assert r.catches[m] == d.catches[k];
        assert r.catches[m] in r.catches;
      }
    }
  }

  /** Saving a photo for an existing row keeps the form valid. */
  lemma SavePendingImageValid(d: Draft, localId: string, file: Photo, caption: string)
    requires Valid(d) && localId in Ids(d.catches)
    ensures Valid(SavePendingImage(d, localId, file, caption))
  {
  }

  /** Removing a photo keeps the form valid: no empty list is left. */
  lemma RemovePendingImageValid(d: Draft, localId: string, imageIndex: int)
    requires Valid(d)
    ensures Valid(RemovePendingImage(d, localId, imageIndex))
  {
  }

  /** Removing the photo just saved gives back the form as it was. */
  lemma SaveThenRemove(d: Draft, localId: string, file: Photo, caption: string)
    requires Valid(d)
    ensures RemovePendingImage(SavePendingImage(d, localId, file, caption), localId,
                               |PendingFor(d, localId)|) == d
  {
    var s := SavePendingImage(d, localId, file, caption);
    var before := PendingFor(d, localId);
    var list := RemoveAt(PendingFor(s, localId), |before|);
    assert list == before;
    if before == [] {
      assert localId !in d.pending;
      assert s.pending - {localId} == d.pending;
    } else {
      assert d.pending[localId := before] == d.pending;
    }
  }
}
