/**
  The decoded shape of a `flickr.photos.search` JSON reply. These records carry
  no behaviour; the client reads `photos.pages` from them to pick the next page.
 */
module SearchResponses {

  /** One photo descriptor; `server`, `id` and `secret` identify its static image. */
  datatype FlickrPhoto = FlickrPhoto(id: string, owner: string, secret: string, server: string, title: string)

  /** One page of results: which page it is, how many pages there are, and its photos. */
  datatype PhotoContainer = PhotoContainer(page: int, pages: int, perpage: int, total: int, photo: seq<FlickrPhoto>)

  /** The reply envelope: the page of photos and the API's status word. */
  datatype SearchResponse = SearchResponse(photos: PhotoContainer, stat: string)
}
