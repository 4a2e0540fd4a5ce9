/** The reply shape of the point-of-interest search service (poi.go). */
module Poi {

  /** One entry of `pois`: the detail page, an optional cover photo
      ("" when the service gave none), the name and the nicknames,
      which may be an empty list. */
  datatype PoiRecord = PoiRecord(
    poiUrl: string,
    coverPhoto: string,
    name: string,
    nickname: seq<string>)

  /** `ResponsePOI`; an empty `pois` is the "not found" signal. */
  datatype ResponsePOI = ResponsePOI(pois: seq<PoiRecord>)
}
