/** The validation and the row building of the server's create and update
    handlers. Each handler either answers 400 before touching the database
    or issues one write, whose row is given here. */
module CreateHandlers {
  import opened Common
  import opened Text
  import opened Coordinates

  /** A handler's decision: refuse with a 400 message, or write a row. */
  datatype Decision<R> = BadRequest(message: string) | Write(row: R)

  /** `POST /location` and `PUT /locations/:id` request bodies. */
  datatype LocationBody = LocationBody(name: Value, region: Value, pinpoint: Value,
                                       isSecret: Value, lore: Value)

  datatype LocationRow = LocationRow(name: Value, region: Value, pinpoint: Value,
                                     latitude: Option<real>, longitude: Option<real>,
                                     isSecret: bool, lore: Value)

  /** `POST /outings` and `PUT /outings/:id` request bodies. */
  datatype OutingBody = OutingBody(userId: Value, locationId: Value, outingDate: Value,
                                   worthReturning: Value, fieldNotes: Value, mvpLure: Value)

  datatype OutingRow = OutingRow(userId: Value, locationId: Value, outingDate: Value,
                                 worthReturning: bool, fieldNotes: Value, mvpLure: Value)

  datatype CatchBody = CatchBody(outingId: Value, species: Value, count: Value, notes: Value)

  datatype CatchRow = CatchRow(outingId: Value, species: Value, count: Value, notes: Value)

  /** An uploaded file: its bytes and its MIME type. */
  datatype Upload = Upload(data: seq<bv8>, mimeType: string)

  /** An image upload body: the owner's id (`catch_id`, `outing_id` or
      `location_id`), a URL, a caption, and the file if one was sent. */
  datatype ImageBody = ImageBody(ownerId: Value, imageUrl: Value, caption: Value, file: Option<Upload>)

  datatype ImageRow = ImageRow(ownerId: Value, imageUrl: Value, imageData: Option<seq<bv8>>,
                               imageType: Value, caption: Value)

  /** The row both location handlers write: the pinpoint as sent, and both
      coordinates from one parse of it, or neither. */
  function LocationRowOf(body: LocationBody): (row: LocationRow)
    ensures row.name == body.name && row.region == body.region && row.lore == body.lore
    ensures row.pinpoint == body.pinpoint
    ensures row.isSecret == Truthy(body.isSecret)
    ensures row.latitude.Some? <==> row.longitude.Some?
    ensures row.latitude.Some? <==> ParseCoordinates(body.pinpoint).Some?
    ensures row.latitude.Some? ==>
              ParseCoordinates(body.pinpoint) == Some(LatLng(row.latitude.value, row.longitude.value))
  {
    var coords := ParseCoordinates(body.pinpoint);
    LocationRow(body.name, body.region, body.pinpoint,
                if coords.Some? then Some(coords.value.latitude) else None,
                if coords.Some? then Some(coords.value.longitude) else None,
                Truthy(body.isSecret), body.lore)
  }

  const CreateLocationUnnamed := "Must name the spot"
  const UpdateLocationUnnamed := "Location name is required"

  /** `POST /location` and `PUT /locations/:id`: a spot needs a name; each
      route refuses one without it with its own message. */
  function SaveLocation(unnamed: string, body: LocationBody): (d: Decision<LocationRow>)
    ensures d.BadRequest? <==> !Truthy(body.name)
    ensures d.BadRequest? ==> d.message == unnamed
    ensures d.Write? ==> d.row == LocationRowOf(body)
  {
    if !Truthy(body.name) then BadRequest(unnamed) else Write(LocationRowOf(body))
  }

  /** Stored coordinates always come from a pinpoint the server accepts:
      both present and in range, or both `null`; a pinpoint that does not
      parse is still stored as it was sent. */
  lemma LocationCoordinates(unnamed: string, body: LocationBody)
    requires SaveLocation(unnamed, body).Write?
    ensures var row := SaveLocation(unnamed, body).row;
            && row.pinpoint == body.pinpoint
            && (row.latitude.None? <==> row.longitude.None?)
            && (row.latitude.Some? ==>
                  && body.pinpoint.Str?
                  && InRange(LatLng(row.latitude.value, row.longitude.value)))
  {
    var row := SaveLocation(unnamed, body).row;
    if row.latitude.Some? {
      ParseCoordinatesSound(body.pinpoint);
    }
  }

  /** The row both outing handlers write. */
  function OutingRowOf(body: OutingBody): (row: OutingRow)
    ensures row.userId == body.userId && row.outingDate == body.outingDate
    ensures row.locationId == (if Truthy(body.locationId) then body.locationId else Null)
    ensures row.worthReturning == Truthy(body.worthReturning)
    ensures row.fieldNotes == body.fieldNotes && row.mvpLure == body.mvpLure
  {
    OutingRow(body.userId, OrElse(body.locationId, Null), body.outingDate,
              Truthy(body.worthReturning), body.fieldNotes, body.mvpLure)
  }

  /** `POST /outings` and `PUT /outings/:id`: an outing needs a user and a
      date. */
  function CreateOuting(body: OutingBody): (d: Decision<OutingRow>)
    ensures d.BadRequest? <==> !Truthy(body.userId) || !Truthy(body.outingDate)
    ensures d.BadRequest? ==> d.message == "User's ID and the date are required"
    ensures d.Write? ==> d.row == OutingRowOf(body) && d.row.locationId != Str("")
  {
    if !Truthy(body.userId) || !Truthy(body.outingDate) then
      BadRequest("User's ID and the date are required")
    else Write(OutingRowOf(body))
  }

  /** `POST /catches`: a catch needs an outing and a species; a falsy count
      is stored as 1 and falsy notes as `null`. */
  function CreateCatch(body: CatchBody): (d: Decision<CatchRow>)
    ensures d.BadRequest? <==> !Truthy(body.outingId) || !Truthy(body.species)
    ensures d.BadRequest? ==> d.message == "Outing ID and species are required"
    ensures d.Write? ==> d.row.outingId == body.outingId && d.row.species == body.species
    ensures d.Write? ==> d.row.count == (if Truthy(body.count) then body.count else Num(1.0))
    ensures d.Write? ==> d.row.notes == (if Truthy(body.notes) then body.notes else Null)
  {
    if !Truthy(body.outingId) || !Truthy(body.species) then
      BadRequest("Outing ID and species are required")
    else Write(CatchRow(body.outingId, body.species, OrElse(body.count, Num(1.0)), OrElse(body.notes, Null)))
  }

  /** A stored catch always has a truthy count. */
  lemma CatchCountTruthy(body: CatchBody)
    requires CreateCatch(body).Write?
    ensures Truthy(CreateCatch(body).row.count)
  {
  }

  const MissingImageError := "Either image URL or file upload is required"

  /** `POST /catch_images`, `/scenery_images` and `/location_images`: the
      owner's id first (with the route's own message), then a URL or a
      file; the file's bytes and type are stored when there is one. */
  function CreateImage(missingOwner: string, body: ImageBody): (d: Decision<ImageRow>)
    ensures !Truthy(body.ownerId) ==> d == BadRequest(missingOwner)
    ensures Truthy(body.ownerId) ==>
              (d == BadRequest(MissingImageError) <==> !Truthy(body.imageUrl) && body.file.None?)
    ensures d.Write? ==>
              && d.row.ownerId == body.ownerId
              && (Truthy(d.row.imageUrl) || d.row.imageData.Some?)
              && (d.row.imageData.Some? <==> body.file.Some?)
              && (body.file.Some? ==> d.row.imageData == Some(body.file.value.data))
              && (d.row.caption == Null || Truthy(d.row.caption))
    ensures d.Write? ==>
              && d.row.imageUrl == OrElse(body.imageUrl, Null)
              && d.row.caption == OrElse(body.caption, Null)
              && d.row.imageType == (if body.file.Some? then OrElse(Str(body.file.value.mimeType), Null) else Null)
  {
    if !Truthy(body.ownerId) then BadRequest(missingOwner)
    else if !Truthy(body.imageUrl) && body.file.None? then BadRequest(MissingImageError)
    else
      var data := if body.file.Some? then Some(body.file.value.data) else None;
      var kind := if body.file.Some? then Str(body.file.value.mimeType) else Null;
      Write(ImageRow(body.ownerId, OrElse(body.imageUrl, Null), data, OrElse(kind, Null),
                     OrElse(body.caption, Null)))
  }

  const CatchImageOwner := "Catch ID is required"
  const SceneryImageOwner := "Outing ID is required"
  const LocationImageOwner := "Location ID is required"
}
