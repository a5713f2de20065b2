/**
 * The camera and location REST routes (backend/routes/camera_routes.py) over in-memory
 * tables. A table is a sequence of rows in table order; ids are handed out by an
 * auto-increment counter starting at 1, as the database's primary keys are.
 */
module CameraRoutes {
  import opened Common

  /** A row of the `location` table. */
  datatype Location = Location(id: int, locName: string)

  /** A row of the `camera` table. */
  datatype Camera = Camera(id: int, camName: string, camStatus: bool, streamUrl: Option<string>, locId: Option<int>)

  /** The fields `create_camera` reads from the JSON body; a missing key is `None`. */
  datatype CameraRequest = CameraRequest(camName: Option<string>, streamUrl: Option<string>, locId: Option<int>)

  /** One entry of the `get_all_cameras` list. */
  datatype CameraView = CameraView(
    id: int, name: string, status: bool, streamUrl: Option<string>,
    locationId: Option<int>, locationName: Option<string>)

  /** The `camera` object of a 201 reply to `create_camera`. */
  datatype CreatedCamera = CreatedCamera(
    id: int, name: string, streamUrl: Option<string>, locationId: int, locationName: string)

  /** One entry of the `get_all_locations` list, and the `location` object of its 201 reply. */
  datatype LocationView = LocationView(id: int, name: string)

  /** An HTTP reply: a success status with its message and value, or an error status. */
  datatype Reply<T> = Ok(code: int, message: string, value: T) | Fail(code: int, message: string)

  const MissingCameraFields := "Missing 'cam_name' or 'loc_id'"
  const LocationNotFound := "Location not found"
  const CameraCreated := "Camera created"
  const MissingLocationName := "Missing 'loc_name'"
  const LocationExists := "Location already exists"
  const LocationCreated := "Location created"
  const CameraNotFound := "Camera not found"

  /** `Location.query.get(id)`: the location with that primary key, if any. */
  function FindLocation(locs: seq<Location>, id: int): (r: Option<Location>)
    ensures r.Some? ==> r.value in locs && r.value.id == id
    ensures r.None? ==> forall i :: 0 <= i < |locs| ==> locs[i].id != id
    decreases |locs|
  {
    if locs == [] then None
    else if locs[0].id == id then Some(locs[0])
    else FindLocation(locs[1..], id)
  }

  /** `Location.query.filter_by(loc_name=name).first()` finds a row. */
  function LocationNamed(locs: seq<Location>, name: string): (r: bool)
    ensures r <==> exists i :: 0 <= i < |locs| && locs[i].locName == name
    decreases |locs|
  {
    if locs == [] then false
    else locs[0].locName == name || LocationNamed(locs[1..], name)
  }

  /** `Camera.query.get(id)`: the position of the camera with that primary key, if any. */
  function FindCamera(cams: seq<Camera>, id: int): (r: Option<nat>)
    ensures r.Some? ==> r.value < |cams| && cams[r.value].id == id
    ensures r.None? ==> forall i :: 0 <= i < |cams| ==> cams[i].id != id
    decreases |cams|
  {
    if cams == [] then None
    else if cams[0].id == id then Some(0)
    else match FindCamera(cams[1..], id)
      case None => None
      case Some(k) => Some(k + 1)
  }

  /** The name of the camera's location, `None` when it has no location row. */
  function LocationNameOf(cam: Camera, locs: seq<Location>): (r: Option<string>)
    ensures r.None? <==> cam.locId.None? || forall i :: 0 <= i < |locs| ==> locs[i].id != cam.locId.value
    ensures r.Some? ==> exists i :: 0 <= i < |locs| && locs[i].id == cam.locId.value && locs[i].locName == r.value
  {
    match cam.locId
    case None => None
    case Some(id) =>
      match FindLocation(locs, id)
      case None => None
      case Some(loc) => Some(loc.locName)
  }

  /** The dictionary `get_all_cameras` builds for one camera. */
  function CameraEntry(cam: Camera, locs: seq<Location>): CameraView {
    CameraView(cam.id, cam.camName, cam.camStatus, cam.streamUrl, cam.locId, LocationNameOf(cam, locs))
  }

  /** `get_all_locations`: one `{id, name}` per location, in table order. */
  function GetAllLocations(locs: seq<Location>): (r: Reply<seq<LocationView>>)
    ensures r.Ok? && r.code == 200
    ensures |r.value| == |locs|
    ensures forall i :: 0 <= i < |locs| ==> r.value[i] == LocationView(locs[i].id, locs[i].locName)
  {
    Ok(200, "", seq(|locs|, i requires 0 <= i < |locs| => LocationView(locs[i].id, locs[i].locName)))
  }

  /** The camera and location tables. */
  class Database {
    var locations: seq<Location>
    var cameras: seq<Camera>
    var nextLocationId: int
    var nextCameraId: int

    /** Primary keys are positive, distinct and below the counters; location names are unique. */
    predicate Valid()
      reads this
    {
      && 0 < nextLocationId && 0 < nextCameraId
      && (forall i :: 0 <= i < |locations| ==> 0 < locations[i].id < nextLocationId)
      && (forall i, j :: 0 <= i < j < |locations| ==> locations[i].id != locations[j].id)
      && (forall i, j :: 0 <= i < j < |locations| ==> locations[i].locName != locations[j].locName)
      && (forall i :: 0 <= i < |cameras| ==> 0 < cameras[i].id < nextCameraId)
      && (forall i, j :: 0 <= i < j < |cameras| ==> cameras[i].id != cameras[j].id)
    }

    constructor ()
      ensures Valid() && locations == [] && cameras == []
      ensures nextLocationId == 1 && nextCameraId == 1
    {
      locations, cameras := [], [];
      nextLocationId, nextCameraId := 1, 1;
    }

    /** `get_all_cameras`: one entry per camera, in table order. */
    method GetAllCameras() returns (reply: Reply<seq<CameraView>>)
      ensures reply.Ok? && reply.code == 200
      ensures |reply.value| == |cameras|
      ensures forall i :: 0 <= i < |cameras| ==> reply.value[i] == CameraEntry(cameras[i], locations)
    {
      var cameraList: seq<CameraView> := [];
      var i := 0;
      while i < |cameras|
        invariant 0 <= i <= |cameras|
        invariant |cameraList| == i
        invariant forall k :: 0 <= k < i ==> cameraList[k] == CameraEntry(cameras[k], locations)
      {
        var cam := cameras[i];
        var locationName := match cam.locId
          case None => None
          case Some(id) => (match FindLocation(locations, id)
            case None => None
            case Some(loc) => Some(loc.locName));
        cameraList := cameraList + [CameraView(cam.id, cam.camName, cam.camStatus, cam.streamUrl, cam.locId, locationName)];
        i := i + 1;
      }
      reply := Ok(200, "", cameraList);
    }

    /** `create_camera`. */
    method CreateCamera(req: CameraRequest) returns (reply: Reply<CreatedCamera>)
      requires Valid()
      modifies this
      ensures Valid()
      ensures locations == old(locations) && nextLocationId == old(nextLocationId)
      // a missing or falsy name or location id: 400, nothing added
      ensures !TruthyText(req.camName) || !TruthyInt(req.locId) ==>
        reply == Fail(400, MissingCameraFields)
        && cameras == old(cameras) && nextCameraId == old(nextCameraId)
      // an unknown location: 404, nothing added
      ensures (TruthyText(req.camName) && TruthyInt(req.locId)
               && FindLocation(locations, req.locId.value).None?) ==>
        reply == Fail(404, LocationNotFound)
        && cameras == old(cameras) && nextCameraId == old(nextCameraId)
      // otherwise exactly one camera appended, active, with the new id
      ensures (TruthyText(req.camName) && TruthyInt(req.locId)
               && FindLocation(locations, req.locId.value).Some?) ==>
        var cam := Camera(old(nextCameraId), req.camName.value, true, req.streamUrl, req.locId);
        && cameras == old(cameras) + [cam]
        && nextCameraId == old(nextCameraId) + 1
        && reply == Ok(201, CameraCreated, CreatedCamera(cam.id, cam.camName, cam.streamUrl,
                       req.locId.value, FindLocation(locations, req.locId.value).value.locName))
    {
      if !TruthyText(req.camName) || !TruthyInt(req.locId) {
        return Fail(400, MissingCameraFields);
      }
      var location := FindLocation(locations, req.locId.value);
      if location.None? {
        return Fail(404, LocationNotFound);
      }
      var newCamera := Camera(nextCameraId, req.camName.value, true, req.streamUrl, req.locId);
      cameras := cameras + [newCamera];
      nextCameraId := nextCameraId + 1;
      reply := Ok(201, CameraCreated, CreatedCamera(newCamera.id, newCamera.camName, newCamera.streamUrl,
                   req.locId.value, location.value.locName));
    }

    /** `create_location`, with the body's `loc_name` (`None` when missing). */
    method CreateLocation(locName: Option<string>) returns (reply: Reply<LocationView>)
      requires Valid()
      modifies this
      ensures Valid()
      ensures cameras == old(cameras) && nextCameraId == old(nextCameraId)
      ensures !TruthyText(locName) ==>
        reply == Fail(400, MissingLocationName)
        && locations == old(locations) && nextLocationId == old(nextLocationId)
      ensures TruthyText(locName) && LocationNamed(old(locations), locName.value) ==>
        reply == Fail(409, LocationExists)
        && locations == old(locations) && nextLocationId == old(nextLocationId)
      ensures TruthyText(locName) && !LocationNamed(old(locations), locName.value) ==>
        && locations == old(locations) + [Location(old(nextLocationId), locName.value)]
        && nextLocationId == old(nextLocationId) + 1
        && reply == Ok(201, LocationCreated, LocationView(old(nextLocationId), locName.value))
    {
      if !TruthyText(locName) {
        return Fail(400, MissingLocationName);
      }
      if LocationNamed(locations, locName.value) {
        return Fail(409, LocationExists);
      }
      var newLocation := Location(nextLocationId, locName.value);
      locations := locations + [newLocation];
      nextLocationId := nextLocationId + 1;
      reply := Ok(201, LocationCreated, LocationView(newLocation.id, newLocation.locName));
    }

    /** `delete_camera(cam_id)`. */
    method DeleteCamera(camId: int) returns (reply: Reply<()>)
      requires Valid()
      modifies this
      ensures Valid()
      ensures locations == old(locations)
      ensures nextLocationId == old(nextLocationId) && nextCameraId == old(nextCameraId)
      ensures FindCamera(old(cameras), camId).None? ==>
        reply == Fail(404, CameraNotFound) && cameras == old(cameras)
      ensures FindCamera(old(cameras), camId).Some? ==>
        var k := FindCamera(old(cameras), camId).value;
        && cameras == RemoveAt(old(cameras), k)
        && reply == Ok(200, "Camera " + IntToDecimal(camId) + " deleted", ())
      // exactly the camera with that id is gone, every other camera stays
      ensures forall c :: c in cameras <==> c in old(cameras) && c.id != camId
    {
      var k := FindCamera(cameras, camId);
      if k.None? {
        return Fail(404, CameraNotFound);
      }
      RemoveCameraKeepsOthers(cameras, k.value, nextCameraId);
      cameras := RemoveAt(cameras, k.value);
      reply := Ok(200, "Camera " + IntToDecimal(camId) + " deleted", ());
    }
  }

  /** The sequence without its `k`-th element. */
  function RemoveAt<T>(s: seq<T>, k: nat): (r: seq<T>)
    requires k < |s|
    ensures |r| == |s| - 1
    ensures forall i :: 0 <= i < k ==> r[i] == s[i]
    ensures forall i :: k <= i < |r| ==> r[i] == s[i + 1]
  {
    s[..k] + s[k + 1..]
  }

  /** Removing the one camera with a given id keeps the key invariants and every other camera. */
  lemma RemoveCameraKeepsOthers(cams: seq<Camera>, k: nat, next: int)
    requires k < |cams|
    requires forall i :: 0 <= i < |cams| ==> 0 < cams[i].id < next
    requires forall i, j :: 0 <= i < j < |cams| ==> cams[i].id != cams[j].id
    ensures var r := RemoveAt(cams, k);
      && (forall i :: 0 <= i < |r| ==> 0 < r[i].id < next)
      && (forall i, j :: 0 <= i < j < |r| ==> r[i].id != r[j].id)
      && (forall c :: c in r <==> c in cams && c.id != cams[k].id)
  {
    var r := RemoveAt(cams, k);
    forall i, j | 0 <= i < j < |r| ensures r[i].id != r[j].id {
      var i' := if i < k then i else i + 1;
      var j' := if j < k then j else j + 1;
      assert r[i] == cams[i'] && r[j] == cams[j'];
    }
    forall c ensures c in r <==> c in cams && c.id != cams[k].id {
      if c in r {
        var i :| 0 <= i < |r| && r[i] == c;
        var i' := if i < k then i else i + 1;
        assert cams[i'] == c && i' != k;
      }
      if c in cams && c.id != cams[k].id {
        var j :| 0 <= j < |cams| && cams[j] == c;
        if j < k {
          assert r[j] == c;
        } else {
          assert r[j - 1] == c;
        }
      }
    }
  }

  /**
   * A usage example, not part of the program: a client sees a created location in the
   * listing and cannot create it twice.
   */
  method LocationLifecycle()
  {
    var db := new Database();
    var first := db.CreateLocation(Some("Living Room"));
    assert first == Ok(201, LocationCreated, LocationView(1, "Living Room"));
    var again := db.CreateLocation(Some("Living Room"));
    assert again == Fail(409, LocationExists);
    var listing := GetAllLocations(db.locations);
    assert listing.value == [LocationView(1, "Living Room")];
  }

  /**
   * A usage example, not part of the program: a camera needs a non-zero id of a known
   * location, and deleting an unknown camera changes nothing.
   */
  method CameraLifecycle()
  {
    var db := new Database();
    var loc := db.CreateLocation(Some("Hall"));
    var noName := db.CreateCamera(CameraRequest(Some("Cam"), None, Some(0)));
    assert noName.code == 400;
    var unknown := db.CreateCamera(CameraRequest(Some("Cam"), None, Some(5)));
    assert unknown == Fail(404, LocationNotFound);
    var cam := db.CreateCamera(CameraRequest(Some("Cam"), None, Some(1)));
    assert cam.code == 201 && |db.cameras| == 1;
    var gone := db.DeleteCamera(7);
    assert gone == Fail(404, CameraNotFound) && |db.cameras| == 1;
  }
}
