/**
 * The live-view grid (src/components/CameraGrid.jsx): page navigation, the step back
 * after a page empties, the disabled state of the two buttons, and the choice between
 * focus mode and grid mode.
 */
module CameraGrid {
  import opened Common

  /** The page the grid starts on. */
  const InitialPage := 1

  /** `goToNextPage`: one page on, but not past the last page. */
  function NextPage(page: int, totalPages: int): (r: int)
    ensures r <= totalPages
    ensures r <= page + 1
    ensures r == page + 1 || r == totalPages
    ensures page < totalPages ==> r == page + 1
  {
    if page + 1 < totalPages then page + 1 else totalPages
  }

  /** `goToPrevPage`: one page back, but not before the first page. */
  function PrevPage(page: int): (r: int)
    ensures r >= 1
    ensures r >= page - 1
    ensures r == page - 1 || r == 1
    ensures page > 1 ==> r == page - 1
  {
    if page - 1 > 1 then page - 1 else 1
  }

  /** The page after a successful fetch that returned `count` cameras. */
  function PageAfterFetch(page: int, count: nat): (r: int)
    ensures count == 0 && page > 1 ==> r == page - 1
    ensures count > 0 || page <= 1 ==> r == page
  {
    if count == 0 && page > 1 then page - 1 else page
  }

  /** The Previous button is disabled. */
  predicate PrevDisabled(page: int, totalPages: int) {
    page == 1 || totalPages == 0
  }

  /** The Next button is disabled. */
  predicate NextDisabled(page: int, totalPages: int) {
    page == totalPages || totalPages == 0
  }

  /** The page is one of the pages there are. */
  predicate InRange(page: int, totalPages: int) {
    1 <= page <= totalPages
  }

  /** An enabled button moves exactly one page and stays among the pages. */
  lemma EnabledButtonsMoveOnePage(page: int, totalPages: int)
    requires InRange(page, totalPages)
    ensures !NextDisabled(page, totalPages) ==>
      NextPage(page, totalPages) == page + 1 && InRange(NextPage(page, totalPages), totalPages)
    ensures !PrevDisabled(page, totalPages) ==>
      PrevPage(page) == page - 1 && InRange(PrevPage(page), totalPages)
  {
  }

  /** On the last page Next leaves the page alone; on the first page Previous does. */
  lemma ClampsAtTheEnds(totalPages: int)
    requires totalPages >= 1
    ensures NextPage(totalPages, totalPages) == totalPages
    ensures PrevPage(InitialPage) == InitialPage
  {
  }

  /** A camera of the fetched page. */
  datatype GridCamera = GridCamera(id: int, location: string)

  /** `cameraList.find(c => c.id === focusedCameraId)`. */
  function FocusedCamera(cameraList: seq<GridCamera>, focusedId: Option<int>): (r: Option<GridCamera>)
    ensures r.Some? ==> focusedId.Some? && r.value in cameraList && r.value.id == focusedId.value
    ensures r.None? ==> focusedId.None? || forall i :: 0 <= i < |cameraList| ==> cameraList[i].id != focusedId.value
    decreases |cameraList|
  {
    if cameraList == [] || focusedId.None? then None
    else if cameraList[0].id == focusedId.value then Some(cameraList[0])
    else FocusedCamera(cameraList[1..], focusedId)
  }

  /** Focus mode is shown: a focused id is set (and truthy) and the page holds that camera. */
  predicate ShowFocusMode(cameraList: seq<GridCamera>, focusedId: Option<int>)
    ensures ShowFocusMode(cameraList, focusedId) <==>
      TruthyInt(focusedId) && exists i :: 0 <= i < |cameraList| && cameraList[i].id == focusedId.value
  {
    TruthyInt(focusedId) && FocusedCamera(cameraList, focusedId).Some?
  }

  /** The focused camera is the first one on the page with that id. */
  lemma {:induction false} FocusedCameraIsFirstMatch(cameraList: seq<GridCamera>, focusedId: int, k: nat)
    requires k < |cameraList| && cameraList[k].id == focusedId
    requires forall i :: 0 <= i < k ==> cameraList[i].id != focusedId
    ensures FocusedCamera(cameraList, Some(focusedId)) == Some(cameraList[k])
    decreases k
  {
    if k > 0 {
      FocusedCameraIsFirstMatch(cameraList[1..], focusedId, k - 1);
    }
  }
}
