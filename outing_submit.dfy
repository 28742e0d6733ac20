/** Submitting the outing log form: the outing is posted first, then each
    catch row that names a species, each followed by the photos waiting for
    it. Requests are awaited one after another, and the first one that
    fails ends the submission with an alert. The ids the server hands back
    are arguments: the outing's, and the one given to the catch created for
    the i-th row. */
module OutingSubmit {
  import opened Common
  import opened OutingDraft
  import opened Text
  import CreateHandlers

  /** The outing fields of the form. */
  datatype OutingForm = OutingForm(userId: int, locationId: string, outingDate: string,
                                   worthReturning: bool, fieldNotes: string, mvpLure: string)

  /** The requests the form sends, with the fields of their bodies. */
  datatype Request =
    | PostOuting(userId: int, locationId: Value, outingDate: string, worthReturning: bool,
                 fieldNotes: string, mvpLure: string)
    | PostCatch(outingId: int, species: string, count: int, notes: Value)
    | PostCatchImage(catchId: int, file: Photo, caption: Option<string>)

  /** The request that fails, with the server's `error` text if its reply
      carried one, and the error's own message. */
  datatype Fault = Fault(at: nat, serverError: Option<string>, message: string)

  /** The form as it first appears, and as a successful submission leaves
      it, dated `today`. */
  function BlankForm(today: string): OutingForm {
    OutingForm(1, "", today, false, "", "")
  }

  /** `POST /outings`: the form's fields, with no location sent as `null`. */
  function OutingRequest(f: OutingForm): (r: Request)
    ensures r.PostOuting? && r.userId == f.userId && r.outingDate == f.outingDate
    ensures r.locationId == (if f.locationId == "" then Null else Str(f.locationId))
    ensures r.worthReturning == f.worthReturning && r.fieldNotes == f.fieldNotes && r.mvpLure == f.mvpLure
  {
    PostOuting(f.userId, OrElse(Str(f.locationId), Null), f.outingDate, f.worthReturning,
               f.fieldNotes, f.mvpLure)
  }

  /** `POST /catches`: a zero count is sent as 1 and empty notes as `null`. */
  function CatchRequest(outingId: int, c: Catch): (r: Request)
    ensures r.PostCatch? && r.outingId == outingId && r.species == c.species
    ensures r.count != 0 && (c.count != 0 ==> r.count == c.count)
    ensures r.notes == (if c.notes == "" then Null else Str(c.notes))
  {
    PostCatch(outingId, c.species, if c.count != 0 then c.count else 1, OrElse(Str(c.notes), Null))
  }

  /** `POST /catch_images`: the caption is only appended when non-empty. */
  function ImageRequest(catchId: int, p: PendingImage): (r: Request)
    ensures r.PostCatchImage? && r.catchId == catchId && r.file == p.file
    ensures r.caption == (if p.caption == "" then None else Some(p.caption))
  {
    PostCatchImage(catchId, p.file, if p.caption != "" then Some(p.caption) else None)
  }

  /** The photo uploads for one catch, in the order they were added. */
  function ImageRequests(catchId: int, images: seq<PendingImage>): seq<Request> {
    if images == [] then []
    else [ImageRequest(catchId, images[0])] + ImageRequests(catchId, images[1..])
  }

  /** What one catch row sends: nothing without a species, otherwise the
      catch and then its photos under the id the server gave it. */
  function Block(outingId: int, c: Catch, d: Draft, catchId: int): seq<Request> {
    if c.species == "" then []
    else [CatchRequest(outingId, c)] + ImageRequests(catchId, PendingFor(d, c.localId))
  }

  /** What the rows `cs` send, `cs[0]` being row number `row` and the catch
      created for row `i` getting the id `catchIdOf(i)`. */
  function CatchPlan(outingId: int, cs: seq<Catch>, d: Draft, catchIdOf: nat -> int, row: nat): seq<Request> {
    if cs == [] then []
    else Block(outingId, cs[0], d, catchIdOf(row)) + CatchPlan(outingId, cs[1..], d, catchIdOf, row + 1)
  }

  /** Every request a submission sends when none fails, in order: the
      outing first, then one catch per row that names a species, in the
      order of the form, each followed by its photos. */
  function SubmitPlan(f: OutingForm, d: Draft, outingId: int, catchIdOf: nat -> int): (plan: seq<Request>)
    ensures |plan| >= 1 && plan[0] == OutingRequest(f)
    ensures CatchPosts(plan) == CatchRequests(outingId, Named(d.catches))
    ensures |plan| == 1 + RowsSize(d.catches, d)
  {
    var rows := CatchPlan(outingId, d.catches, d, catchIdOf, 0);
    CatchPostsAppend([OutingRequest(f)], rows);
    PlanCatchPosts(outingId, d.catches, d, catchIdOf, 0);
    PlanLength(outingId, d.catches, d, catchIdOf, 0);
    [OutingRequest(f)] + rows
  }

  /** The alert: the server's error text if there is one, else the error's
      message. */
  function AlertText(fault: Fault): (s: string)
    ensures fault.serverError.Some? && fault.serverError.value != "" ==>
              s == "Failed to create outing: " + fault.serverError.value
    ensures fault.serverError.None? || fault.serverError.value == "" ==>
              s == "Failed to create outing: " + fault.message
  {
    "Failed to create outing: "
    + (if fault.serverError.Some? && fault.serverError.value != "" then fault.serverError.value
       else fault.message)
  }

  /** With `n` requests already sent and no fault before them, sending
      `run` took `sent` from `before` to `after`: all of it, or, when the
      fault falls inside it, everything up to and including the failing
      request. */
  ghost predicate Delivered(before: seq<Request>, after: seq<Request>, run: seq<Request>,
                            fault: Option<Fault>, n: nat, failed: bool)
    requires fault.Some? ==> fault.value.at >= n
  {
    && (failed <==> fault.Some? && fault.value.at < n + |run|)
    && after == before + (if failed then run[..fault.value.at - n + 1] else run)
  }

  /** Sending `first` in full and then `second` is sending `first + second`. */
  lemma DeliveredThen(before: seq<Request>, mid: seq<Request>, after: seq<Request>,
                      first: seq<Request>, second: seq<Request>, fault: Option<Fault>,
                      n: nat, failed: bool)
    requires fault.Some? ==> fault.value.at >= n + |first|
    requires mid == before + first
    requires Delivered(mid, after, second, fault, n + |first|, failed)
    ensures Delivered(before, after, first + second, fault, n, failed)
  {
    if failed {
      var k := fault.value.at - n - |first| + 1;
      assert (first + second)[..|first| + k] == first + second[..k];
    }
  }

  /** A sending that failed inside `run` also failed inside any longer plan
      that starts with `run`. */
  lemma DeliveredExtend(before: seq<Request>, after: seq<Request>, run: seq<Request>,
                        more: seq<Request>, fault: Option<Fault>, n: nat)
    requires fault.Some? ==> fault.value.at >= n
    requires Delivered(before, after, run, fault, n, true)
    ensures Delivered(before, after, run + more, fault, n, true)
  {
    var k := fault.value.at - n + 1;
    assert (run + more)[..k] == run[..k];
  }

  /** Moving a block from what is still to go to what has been sent. */
  lemma SendBlock<T>(done: seq<T>, block: seq<T>, tail: seq<T>)
    ensures (done + block) + tail == done + (block + tail)
  {
  }

  /** Row `i`'s requests, then those of the rows after it. */
  lemma PlanUnfold(outingId: int, cs: seq<Catch>, d: Draft, catchIdOf: nat -> int, i: nat)
    requires i < |cs|
    ensures CatchPlan(outingId, cs[i..], d, catchIdOf, i)
            == Block(outingId, cs[i], d, catchIdOf(i)) + CatchPlan(outingId, cs[i + 1..], d, catchIdOf, i + 1)
  {
    assert cs[i..][1..] == cs[i + 1..];
  }

  /** One photo's upload, then those of the photos after it. */
  lemma ImagesUnfold(catchId: int, images: seq<PendingImage>, j: nat)
    requires j < |images|
    ensures ImageRequests(catchId, images[j..])
            == [ImageRequest(catchId, images[j])] + ImageRequests(catchId, images[j + 1..])
  {
    assert images[j..][1..] == images[j + 1..];
  }

  /** The uploads for `images`, as far as `j`. */
  lemma ImagesPrefix(catchId: int, images: seq<PendingImage>, j: nat)
    requires j < |images|
    ensures |ImageRequests(catchId, images)| == |images|
    ensures ImageRequests(catchId, images)[..j + 1]
            == ImageRequests(catchId, images)[..j] + [ImageRequest(catchId, images[j])]
  {
    ImagesLength(catchId, images);
    ImagesAt(catchId, images, j);
    assert ImageRequests(catchId, images)[..j + 1]
           == ImageRequests(catchId, images)[..j] + [ImageRequests(catchId, images)[j]];
  }

  lemma {:induction false} ImagesLength(catchId: int, images: seq<PendingImage>)
    ensures |ImageRequests(catchId, images)| == |images|
  {
    if images != [] {
      ImagesLength(catchId, images[1..]);
    }
  }

  lemma {:induction false} ImagesAt(catchId: int, images: seq<PendingImage>, j: nat)
    requires j < |images|
    ensures |ImageRequests(catchId, images)| == |images|
    ensures ImageRequests(catchId, images)[j] == ImageRequest(catchId, images[j])
  {
    ImagesLength(catchId, images);
    if j > 0 {
      ImagesAt(catchId, images[1..], j - 1);
    }
  }

  /** The rows that name a species, in order. */
  function Named(cs: seq<Catch>): (r: seq<Catch>)
    ensures |r| <= |cs|
    ensures forall k :: 0 <= k < |r| ==> r[k].species != "" && r[k] in cs
    ensures forall k :: 0 <= k < |cs| && cs[k].species != "" ==> cs[k] in r
  {
    if cs == [] then []
    else
      assert forall k :: 1 <= k < |cs| ==> cs[k] == cs[1..][k - 1];
      (if cs[0].species != "" then [cs[0]] else []) + Named(cs[1..])
  }

  /** Keeping the named rows of two runs keeps those of the first, then
      those of the second: with the one-row case, `Named` is `cs` with the
      unnamed rows removed, in order. */
  lemma {:induction false} NamedAppend(a: seq<Catch>, b: seq<Catch>)
    ensures Named(a + b) == Named(a) + Named(b)
  {
    if a == [] {
      assert a + b == b;
    } else {
      assert (a + b)[0] == a[0] && (a + b)[1..] == a[1..] + b;
      NamedAppend(a[1..], b);
    }
  }

  /** How many requests the rows `cs` send: each row that names a species
      sends its catch and one upload per pending photo; the others send
      nothing. */
  function RowsSize(cs: seq<Catch>, d: Draft): nat {
    if cs == [] then 0
    else (if cs[0].species != "" then 1 + |PendingFor(d, cs[0].localId)| else 0) + RowsSize(cs[1..], d)
  }

  /** The rows' plan holds exactly that many requests: nothing beyond the
      named rows' catches and their photos. */
  lemma {:induction false} PlanLength(outingId: int, cs: seq<Catch>, d: Draft, catchIdOf: nat -> int, row: nat)
    ensures |CatchPlan(outingId, cs, d, catchIdOf, row)| == RowsSize(cs, d)
  {
    if cs != [] {
      PlanLength(outingId, cs[1..], d, catchIdOf, row + 1);
      ImagesLength(catchIdOf(row), PendingFor(d, cs[0].localId));
    }
  }

  /** A row without a species sends nothing: not its catch, and not its
      photos. */
  lemma UnnamedRowSendsNothing(outingId: int, cs: seq<Catch>, d: Draft, catchIdOf: nat -> int, i: nat)
    requires i < |cs| && cs[i].species == ""
    ensures CatchPlan(outingId, cs[..i + 1], d, catchIdOf, 0) == CatchPlan(outingId, cs[..i], d, catchIdOf, 0)
  {
    assert cs[..i + 1] == cs[..i] + [cs[i]];
    PlanAppend(outingId, cs[..i], [cs[i]], d, catchIdOf, 0);
    assert CatchPlan(outingId, [cs[i]], d, catchIdOf, i) == [];
  }

  /** The catch posts among some requests, in order. */
  function CatchPosts(plan: seq<Request>): seq<Request> {
    if plan == [] then []
    else (if plan[0].PostCatch? then [plan[0]] else []) + CatchPosts(plan[1..])
  }

  /** The catch posts for some rows, one per row. */
  function CatchRequests(outingId: int, cs: seq<Catch>): (r: seq<Request>)
    ensures |r| == |cs|
    ensures forall k :: 0 <= k < |cs| ==> r[k] == CatchRequest(outingId, cs[k])
  {
    if cs == [] then [] else [CatchRequest(outingId, cs[0])] + CatchRequests(outingId, cs[1..])
  }

  lemma {:induction false} CatchPostsAppend(a: seq<Request>, b: seq<Request>)
    ensures CatchPosts(a + b) == CatchPosts(a) + CatchPosts(b)
  {
    if a == [] {
      assert a + b == b;
    } else {
      assert (a + b)[0] == a[0] && (a + b)[1..] == a[1..] + b;
      CatchPostsAppend(a[1..], b);
    }
  }

  lemma {:induction false} NoCatchPostsInImages(catchId: int, images: seq<PendingImage>)
    ensures CatchPosts(ImageRequests(catchId, images)) == []
  {
    if images != [] {
      var rest := ImageRequests(catchId, images[1..]);
      assert ([ImageRequest(catchId, images[0])] + rest)[1..] == rest;
      NoCatchPostsInImages(catchId, images[1..]);
    }
  }

  /** The catch posts of one row's block: its catch, if it names a species. */
  lemma BlockCatchPosts(outingId: int, c: Catch, d: Draft, catchId: int)
    ensures CatchPosts(Block(outingId, c, d, catchId))
            == (if c.species != "" then [CatchRequest(outingId, c)] else [])
  {
    if c.species != "" {
      var images := PendingFor(d, c.localId);
      CatchPostsAppend([CatchRequest(outingId, c)], ImageRequests(catchId, images));
      NoCatchPostsInImages(catchId, images);
      assert CatchPosts([CatchRequest(outingId, c)]) == [CatchRequest(outingId, c)];
    }
  }

  lemma NamedStep(outingId: int, cs: seq<Catch>)
    requires cs != []
    ensures CatchRequests(outingId, Named(cs))
            == (if cs[0].species != "" then [CatchRequest(outingId, cs[0])] else [])
               + CatchRequests(outingId, Named(cs[1..]))
  {
    var rest := Named(cs[1..]);
    if cs[0].species != "" {
      assert ([cs[0]] + rest)[0] == cs[0] && ([cs[0]] + rest)[1..] == rest;
    } else {
      assert Named(cs) == rest;
    }
  }

  /** The catches a submission creates are exactly the rows that name a
      species, in the order of the form: rows without one send nothing. */
  lemma {:induction false} PlanCatchPosts(outingId: int, cs: seq<Catch>, d: Draft, catchIdOf: nat -> int, row: nat)
    ensures CatchPosts(CatchPlan(outingId, cs, d, catchIdOf, row)) == CatchRequests(outingId, Named(cs))
  {
    if cs != [] {
      var block := Block(outingId, cs[0], d, catchIdOf(row));
      var rest := CatchPlan(outingId, cs[1..], d, catchIdOf, row + 1);
      assert CatchPlan(outingId, cs, d, catchIdOf, row) == block + rest;
      CatchPostsAppend(block, rest);
      PlanCatchPosts(outingId, cs[1..], d, catchIdOf, row + 1);
      BlockCatchPosts(outingId, cs[0], d, catchIdOf(row));
      NamedStep(outingId, cs);
    }
  }

  /** The plan of two runs of rows is the plan of the first, then that of
      the second. */
  lemma {:induction false} PlanAppend(outingId: int, a: seq<Catch>, b: seq<Catch>, d: Draft,
                                      catchIdOf: nat -> int, row: nat)
    ensures CatchPlan(outingId, a + b, d, catchIdOf, row)
            == CatchPlan(outingId, a, d, catchIdOf, row) + CatchPlan(outingId, b, d, catchIdOf, row + |a|)
  {
    if a == [] {
      assert a + b == b;
    } else {
      var block := Block(outingId, a[0], d, catchIdOf(row));
      var front := CatchPlan(outingId, a[1..], d, catchIdOf, row + 1);
      var back := CatchPlan(outingId, b, d, catchIdOf, row + |a|);
      assert (a + b)[0] == a[0] && (a + b)[1..] == a[1..] + b;
      PlanAppend(outingId, a[1..], b, d, catchIdOf, row + 1);
      SendBlock(block, front, back);
    }
  }

  /** Where a block `[x] + photos` sits in `[o] + a + block + c`. */
  lemma Located<T>(plan: seq<T>, o: T, a: seq<T>, x: T, photos: seq<T>, c: seq<T>)
    requires plan == [o] + (a + (([x] + photos) + c))
    ensures 1 + |a| + |photos| < |plan| && plan[1 + |a|] == x
    ensures forall j :: 0 <= j < |photos| ==> plan[1 + |a| + 1 + j] == photos[j]
  {
    forall j | 0 <= j < |photos| ensures plan[1 + |a| + 1 + j] == photos[j] {
      assert plan[1 + |a| + 1 + j] == (([x] + photos) + c)[1 + j];
    }
  }

  /** In the request plan, the catch of a row that names a species is
      immediately followed by that row's photos, in the order they were
      added, each sent under the id the server gave that catch. */
  lemma CatchThenPhotos(f: OutingForm, d: Draft, outingId: int, catchIdOf: nat -> int, i: nat)
    requires i < |d.catches| && d.catches[i].species != ""
    ensures var plan := SubmitPlan(f, d, outingId, catchIdOf);
            var at := 1 + |CatchPlan(outingId, d.catches[..i], d, catchIdOf, 0)|;
            var images := PendingFor(d, d.catches[i].localId);
            && at + |images| < |plan|
            && plan[at] == CatchRequest(outingId, d.catches[i])
            && forall j :: 0 <= j < |images| ==> plan[at + 1 + j] == ImageRequest(catchIdOf(i), images[j])
  {
    RowThenPhotos(f, d, outingId, catchIdOf, i);
  }

  /** `CatchThenPhotos` with the plan written out. */
  lemma RowThenPhotos(f: OutingForm, d: Draft, outingId: int, catchIdOf: nat -> int, i: nat)
    requires i < |d.catches| && d.catches[i].species != ""
    ensures var plan := [OutingRequest(f)] + CatchPlan(outingId, d.catches, d, catchIdOf, 0);
            var at := 1 + |CatchPlan(outingId, d.catches[..i], d, catchIdOf, 0)|;
            var images := PendingFor(d, d.catches[i].localId);
            && at + |images| < |plan|
            && plan[at] == CatchRequest(outingId, d.catches[i])
            && forall j :: 0 <= j < |images| ==> plan[at + 1 + j] == ImageRequest(catchIdOf(i), images[j])
  {
    var cs := d.catches;
    var images := PendingFor(d, cs[i].localId);
    var photos := ImageRequests(catchIdOf(i), images);
    assert cs == cs[..i] + cs[i..];
    PlanAppend(outingId, cs[..i], cs[i..], d, catchIdOf, 0);
    PlanUnfold(outingId, cs, d, catchIdOf, i);
    ImagesLength(catchIdOf(i), images);
    Located([OutingRequest(f)] + CatchPlan(outingId, cs, d, catchIdOf, 0), OutingRequest(f),
            CatchPlan(outingId, cs[..i], d, catchIdOf, 0), CatchRequest(outingId, cs[i]), photos,
            CatchPlan(outingId, cs[i + 1..], d, catchIdOf, i + 1));
    forall j | 0 <= j < |images| ensures photos[j] == ImageRequest(catchIdOf(i), images[j]) {
      ImagesAt(catchIdOf(i), images, j);
    }
  }

  /** The body `POST /outings` carries, as the server reads it. */
  function OutingBodyOf(r: Request): (b: CreateHandlers.OutingBody)
    requires r.PostOuting?
    ensures b.locationId == r.locationId && b.outingDate == Str(r.outingDate)
  {
    CreateHandlers.OutingBody(Num(r.userId as real), r.locationId, Str(r.outingDate),
                              Bool(r.worthReturning), Str(r.fieldNotes), Str(r.mvpLure))
  }

  /** The outing the form posts passes the server's check exactly when it
      has a user and a date, and an empty location is stored as `null`. */
  lemma OutingPostAccepted(f: OutingForm)
    ensures var w := CreateHandlers.CreateOuting(OutingBodyOf(OutingRequest(f)));
            && (w.Write? <==> f.userId != 0 && f.outingDate != "")
            && (w.Write? ==>
                  && w.row.locationId == (if f.locationId == "" then Null else Str(f.locationId))
                  && w.row.worthReturning == f.worthReturning)
  {
  }

  /** The body `POST /catches` carries, as the server reads it. */
  function CatchBodyOf(r: Request): (b: CreateHandlers.CatchBody)
    requires r.PostCatch?
    ensures b.species == Str(r.species) && b.notes == r.notes
  {
    CreateHandlers.CatchBody(Num(r.outingId as real), Str(r.species), Num(r.count as real), r.notes)
  }

  /** The multipart body `POST /catch_images` carries: every field of a
      multipart form is text, so the catch id arrives as its decimal
      text, and a caption not appended is missing. */
  function ImageBodyOf(r: Request): (b: CreateHandlers.ImageBody)
    requires r.PostCatchImage?
    ensures b.file == Some(CreateHandlers.Upload(r.file.bytes, r.file.mimeType))
  {
    CreateHandlers.ImageBody(Str(IntText(r.catchId)), Null,
                             if r.caption.Some? then Str(r.caption.value) else Null,
                             Some(CreateHandlers.Upload(r.file.bytes, r.file.mimeType)))
  }

  /** Every catch the form posts under a real outing id passes the server's
      check, and is stored with the count the form meant (a zero count as
      1) and its notes (empty notes as `null`). */
  lemma CatchPostAccepted(outingId: int, c: Catch)
    requires outingId != 0 && c.species != ""
    ensures var w := CreateHandlers.CreateCatch(CatchBodyOf(CatchRequest(outingId, c)));
            && w.Write?
            && w.row.outingId == Num(outingId as real) && w.row.species == Str(c.species)
            && w.row.count == Num((if c.count == 0 then 1 else c.count) as real)
            && w.row.notes == (if c.notes == "" then Null else Str(c.notes))
  {
  }

  /** Every photo upload the form sends passes the server's check, whatever
      the catch id: the id arrives as non-empty text and the file is always
      there. The stored caption is the photo's, or `null` when it had none. */
  lemma ImagePostAccepted(catchId: int, p: PendingImage)
    ensures var w := CreateHandlers.CreateImage(CreateHandlers.CatchImageOwner,
                                                ImageBodyOf(ImageRequest(catchId, p)));
            && w.Write?
            && w.row.ownerId == Str(IntText(catchId))
            && w.row.imageData == Some(p.file.bytes)
            && w.row.caption == (if p.caption == "" then Null else Str(p.caption))
  {
  }

  class OutingLog {
    var form: OutingForm
    var draft: Draft
    var showSuccess: bool
    /** Every request sent so far, in order. */
    var sent: seq<Request>
    /** Every alert shown so far. */
    var alerts: seq<string>

    constructor (today: string, localId: string)
      ensures form == BlankForm(today) && draft == Initial(localId)
      ensures !showSuccess && sent == [] && alerts == []
    {
      form := BlankForm(today);
      draft := Initial(localId);
      showSuccess := false;
      sent := [];
      alerts := [];
    }

    /** The inner `for` of `handleSubmit`: one catch's photo uploads in
        order, `n` requests having gone before them. */
    method SendImages(catchId: int, images: seq<PendingImage>, fault: Option<Fault>, n: nat)
      returns (next: nat, failed: bool)
      requires fault.Some? ==> fault.value.at >= n
      modifies this
      ensures |ImageRequests(catchId, images)| == |images|
      ensures Delivered(old(sent), sent, ImageRequests(catchId, images), fault, n, failed)
      ensures !failed ==> next == n + |images|
      ensures form == old(form) && draft == old(draft) && showSuccess == old(showSuccess)
      ensures alerts == old(alerts)
    {
      ghost var run := ImageRequests(catchId, images);
      ImagesLength(catchId, images);
      var j := 0;
      while j < |images|
        invariant j <= |images| && sent == old(sent) + run[..j]
        invariant fault.Some? ==> fault.value.at >= n + j
        invariant form == old(form) && draft == old(draft) && showSuccess == old(showSuccess)
        invariant alerts == old(alerts)
      {
        ImagesPrefix(catchId, images, j);
        sent := sent + [ImageRequest(catchId, images[j])];
        if fault.Some? && fault.value.at == n + j {
          return n + j + 1, true;
        }
        j := j + 1;
      }
      assert run[..j] == run;
      return n + j, false;
    }

    /** One pass of the outer `for`: a row without a species sends
        nothing; otherwise its catch, then its photos under the id the
        server gave the catch. */
    method SendRow(outingId: int, c: Catch, d: Draft, catchId: int, fault: Option<Fault>, n: nat)
      returns (next: nat, failed: bool)
      requires fault.Some? ==> fault.value.at >= n
      modifies this
      ensures Delivered(old(sent), sent, Block(outingId, c, d, catchId), fault, n, failed)
      ensures !failed ==> next == n + |Block(outingId, c, d, catchId)|
      ensures form == old(form) && draft == old(draft) && showSuccess == old(showSuccess)
      ensures alerts == old(alerts)
    {
      if c.species == "" {
        return n, false;
      }
      var images := PendingFor(d, c.localId);
      ghost var run := Block(outingId, c, d, catchId);
      assert run == [CatchRequest(outingId, c)] + ImageRequests(catchId, images);
      sent := sent + [CatchRequest(outingId, c)];
      if fault.Some? && fault.value.at == n {
        assert run[..1] == [CatchRequest(outingId, c)];
        return n + 1, true;
      }
      ghost var mid := sent;
      next, failed := SendImages(catchId, images, fault, n + 1);
      DeliveredThen(old(sent), mid, sent, [CatchRequest(outingId, c)], ImageRequests(catchId, images),
                    fault, n, failed);
    }

    /** The outer `for` of `handleSubmit`: the rows in order, `n` requests
        having gone before them. */
    method SendRows(outingId: int, d: Draft, catchIdOf: nat -> int, fault: Option<Fault>, n: nat)
      returns (failed: bool)
      requires fault.Some? ==> fault.value.at >= n
      modifies this
      ensures Delivered(old(sent), sent, CatchPlan(outingId, d.catches, d, catchIdOf, 0), fault, n, failed)
      ensures form == old(form) && draft == old(draft) && showSuccess == old(showSuccess)
      ensures alerts == old(alerts)
    {
      ghost var run := CatchPlan(outingId, d.catches, d, catchIdOf, 0);
      // `done` has been sent and `rest` is still to go
      ghost var done: seq<Request> := [];
      ghost var rest := run;
      assert d.catches[0..] == d.catches;
      var m := n;
      var i := 0;
      while i < |d.catches|
        invariant i <= |d.catches|
        invariant rest == CatchPlan(outingId, d.catches[i..], d, catchIdOf, i)
        invariant done + rest == run && sent == old(sent) + done && m == n + |done|
        invariant fault.Some? ==> fault.value.at >= m
        invariant form == old(form) && draft == old(draft) && showSuccess == old(showSuccess)
        invariant alerts == old(alerts)
      {
        PlanUnfold(outingId, d.catches, d, catchIdOf, i);
        ghost var block := Block(outingId, d.catches[i], d, catchIdOf(i));
        ghost var tail := CatchPlan(outingId, d.catches[i + 1..], d, catchIdOf, i + 1);
        ghost var mid := sent;
        var next;
        next, failed := SendRow(outingId, d.catches[i], d, catchIdOf(i), fault, m);
        DeliveredThen(old(sent), mid, sent, done, block, fault, n, failed);
        SendBlock(done, block, tail);
        if failed {
          DeliveredExtend(old(sent), sent, done + block, tail, fault, n);
          return;
        }
        done, rest, m := done + block, tail, next;
        i := i + 1;
      }
      assert done == run;
      failed := false;
    }

    /** `handleSubmit`. Without a fault inside the plan, every request of
        the plan is sent and the form is reset; with one, the requests up to
        and including the failing one are sent, the form keeps what was
        typed, and an alert is shown. */
    method HandleSubmit(outingId: int, catchIdOf: nat -> int, fault: Option<Fault>,
                        today: string, localId: string)
      modifies this
      ensures var plan := SubmitPlan(old(form), old(draft), outingId, catchIdOf);
              var failed := fault.Some? && fault.value.at < |plan|;
              && sent == old(sent) + (if failed then plan[..fault.value.at + 1] else plan)
              && (failed ==>
                    && form == old(form) && draft == old(draft) && showSuccess == old(showSuccess)
                    && alerts == old(alerts) + [AlertText(fault.value)])
              && (!failed ==>
                    && form == BlankForm(today) && draft == Initial(localId) && showSuccess
                    && alerts == old(alerts))
    {
      var f := form;
      var d := draft;
      ghost var plan := SubmitPlan(f, d, outingId, catchIdOf);
      ghost var rows := CatchPlan(outingId, d.catches, d, catchIdOf, 0);
      sent := sent + [OutingRequest(f)];
      var failed := fault.Some? && fault.value.at == 0;
      if failed {
        assert plan[..1] == [OutingRequest(f)];
      } else {
        ghost var mid := sent;
        failed := SendRows(outingId, d, catchIdOf, fault, 1);
        DeliveredThen(old(sent), mid, sent, [OutingRequest(f)], rows, fault, 0, failed);
      }
      if failed {
        alerts := alerts + [AlertText(fault.value)];
      } else {
        form := BlankForm(today);
        draft := Initial(localId);
        showSuccess := true;
      }
    }
  }
}
