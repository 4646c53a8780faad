# VirtualTourist Flickr client, modelled in Dafny

VirtualTourist is an iOS travel-journal app: the user drops pins on a map and
each pin loads a page of photos taken near it from Flickr. This project models
the app's Flickr client (`VirtualTourist/Model/API/FlickrClient.swift`):

- **Endpoint URLs** (`Endpoints.stringValue`). A search becomes a
  `flickr.photos.search` query on `https://www.flickr.com/services/rest` with the
  API key, the pin's latitude and longitude, the page, and the fixed fields
  `per_page=10`, `format=json` and `nojsoncallback=1`. A photo becomes the static
  image URL `https://live.staticflickr.com/<server>/<id>_<secret>.jpg`. The
  model builds exactly these strings (`Endpoints.StringValue`). Their partners are
  parsers that read a URL back (`ParseSearchUrl`, `ParsePhotoUrl`). Round-trip
  lemmas prove that the URL carries exactly the intended fields when the key and
  coordinate texts have no '&', and exactly the intended photo when the server
  has no '/' and the photo id no '_'. Collision lemmas show that neither holds
  without its condition. The
  page number is rendered as Swift renders an `Int` (`Text.IntToString`), and
  `Text.ParseInt` is its proved inverse.
- **Pagination state** (`Search.page`, `search`, `setRandomPage`). This is one
  process-wide page number, modelled as the class `Client.FlickrClient` with a
  field `page`. It starts at 1. Every search issues its request with the page
  current at call time. When a reply decodes, the page is replaced by a random
  draw from `1..<pages`, where `pages` is the reply's page count. A transport or
  decode failure leaves the page alone. On every path the completion handler is
  called exactly once, with `(response, nil)` or `(nil, error)`.

Modules: `Wrappers` (Option), `Text` (integer rendering, split and join),
`QueryStrings` (`name=value&...` query strings), `SearchResponses` (the decoded
reply records of `VirtualTourist/Model/Response/SearchResponse.swift`),
`Endpoints` and `Client`.

The model follows the code as written. These consequences are proved, not changed:

- The draw `Int.random(in: 1..<total)` never picks the last page `total`
  (`DrawablePages`, `SetRandomPage`).
- There is no guard for a reply with `pages <= 1`. For `pages < 1` the range
  `1..<pages` cannot be formed, and for `pages == 1` it is empty. Either way the
  program traps. The model states this as a precondition of `SetRandomPage`,
  `Complete` and `Search`. The set `DrawablePages(total)` equals `1..<total` for
  `total >= 1` and is empty for `total <= 1`; Swift's range is empty only for
  `total == 1`. There is no fallback to page 1.
- The code keeps a single page for the whole process, and so does the model.
- Two searches for the same pin issued before either data task completes read
  the same page, so they send the same request (`OverlappingRequests`).

## Model

| member | source | states |
|---|---|---|
| Endpoints.PhotoUrlRoundTrip | VirtualTourist/Model/API/FlickrClient.swift:26 | the photo URL is `https://live.staticflickr.com/` + server + `/` + id + `_` + secret + `.jpg`: reading it back yields exactly that server, id and secret, provided the server has no '/' and the id no '_' |
| Endpoints.PhotoUrlInjective | VirtualTourist/Model/API/FlickrClient.swift:26 | provided each server has no '/' and each id no '_', two photos with the same URL are the same photo, so the URL is usable as a cache key |
| Endpoints.PhotoUrlCollision | VirtualTourist/Model/API/FlickrClient.swift:26 | without the '_' restriction, two different photos yield one URL |
| Endpoints.SearchUrlIsQuery | VirtualTourist/Model/API/FlickrClient.swift:18-25 | the search URL is the REST base, '?', then the fields method=flickr.photos.search, api_key, lat, lon, page, per_page=10, format=json and nojsoncallback=1 joined by '&' in this order |
| Endpoints.SearchUrlRoundTrip | VirtualTourist/Model/API/FlickrClient.swift:25 | reading a search URL back yields exactly those eight (name, value) fields, provided the key and coordinate texts have no '&' |
| Endpoints.SearchUrlPage | VirtualTourist/Model/API/FlickrClient.swift:25 | provided the key and coordinate texts have no '&', the page field of a search URL reads back as the page it was built with, and per_page reads back as 10, format as json, nojsoncallback as 1 (a key such as "x&page=7" adds an earlier page field; SearchUrlFixedTail is the statement that holds for all inputs) |
| Endpoints.SearchUrlInjective | VirtualTourist/Model/API/FlickrClient.swift:20-25 | provided the key and the coordinate texts contain no '&', a search URL determines the key, latitude, longitude and page it was built from (with '&' allowed, key "a&lat=b" with latitude "c" and key "a" with latitude "b&lat=c" give one URL) |
| Endpoints.SearchUrlCollision | VirtualTourist/Model/API/FlickrClient.swift:25 | without the '&' restriction, key "a&lat=b" with latitude "c" and key "a" with latitude "b&lat=c" give the same search URL |
| Endpoints.SearchUrlFixedTail | VirtualTourist/Model/API/FlickrClient.swift:25 | every search URL, for all inputs, ends with `&per_page=10&format=json&nojsoncallback=1` |
| Text.IntToStringRoundTrip | VirtualTourist/Model/API/FlickrClient.swift:25 | the decimal text interpolated for the page reads back as that page |
| Text.IntToStringInjective | VirtualTourist/Model/API/FlickrClient.swift:25 | different pages produce different page texts |
| QueryStrings.QueryRoundTrip | VirtualTourist/Model/API/FlickrClient.swift:25 | a non-empty list of well-formed `name=value` fields, joined by '&', reads back as those fields |
| Client.DrawablePages | VirtualTourist/Model/API/FlickrClient.swift:64 | the set holds exactly the pages 1 to total - 1 (never total): it equals Swift's `1..<total` for total >= 1, has total - 1 members for total >= 2, and is empty for total <= 1 (Swift's range is empty only for total == 1; for total < 1 it cannot be formed) |
| Client.FlickrClient.constructor | VirtualTourist/Model/API/FlickrClient.swift:13-15 | the pagination state starts at page 1 |
| Client.FlickrClient.SetRandomPage | VirtualTourist/Model/API/FlickrClient.swift:63-65 | requires total >= 2, because `1..<total` cannot be formed (total < 1) or is empty (total == 1) and the program traps; the new page lies in 1..total-1 |
| Client.FlickrClient.Complete | VirtualTourist/Model/API/FlickrClient.swift:39-58 | exactly one completion call: on a transport error or decode failure it is (nil, error) and the page is unchanged; on a decoded reply the page becomes a draw from 1..<pages and the call is (response, nil) |
| Client.FlickrClient.Request | VirtualTourist/Model/API/FlickrClient.swift:36-37 | the request is the search URL for the pin at the page current at call time, and nothing changes |
| Client.FlickrClient.Search | VirtualTourist/Model/API/FlickrClient.swift:35-61 | a search whose data task completes before the next one: the request as in Request at the page current at call time, then the outcome handled as in Complete; keeps page >= 1 |
| Client.FirstSearch | VirtualTourist/Model/API/FlickrClient.swift:14-36 | a fresh client's first search requests page 1 |
| Client.OverlappingRequests | VirtualTourist/Model/API/FlickrClient.swift:36 | two requests for the same pin issued before any completion runs are identical |
| Client.SearchAfterFailure | VirtualTourist/Model/API/FlickrClient.swift:39-58 | for any client state, after a failed search the next search for the same pin sends the identical request |
| Client.SearchAfterSuccess | VirtualTourist/Model/API/FlickrClient.swift:35-65 | for any client state, after a decoded reply with `pages` pages the next search requests some page in 1..pages-1 |

## Left out

- Network I/O (`URLSession`), `JSONDecoder` and `DispatchQueue.main.async`. The
  data task's result is the input `Outcome`. Completion calls are returned
  synchronously, in order. Two searches in flight at once are expressed by
  issuing `Request` calls before the matching `Complete` calls. Nothing about
  thread hopping is modelled.
- `Endpoints.url` (`URL(string:)!`): URL parsing is a platform parser. The model
  stops at the string.
- The `data!` force-unwrap: the model assumes that data is present whenever there
  is no error. A reply with neither data nor error, which traps, is not modelled.
- Swift's formatting of the `Double` latitude and longitude: these arrive as
  opaque, already-formatted strings (`Client.Pin`).
- `Auth.API_KEY`: `Auth` is not part of this model. The key is a parameter.
- Swift's 64-bit `Int`: pages are unbounded integers. The client does no
  arithmetic on them, so no overflow is lost.
- SetRandomPage: states the range of the draw, not that the draw is uniform.
  Probability is outside the model.
- `ImageCache.swift`: a wrapper over `NSCache`, whose eviction is unspecified.
  It has no contract of its own to state.
- `TravelLocationsMapViewController.swift`, `PhotoAlbumViewController.swift`,
  `DataController.swift` and `Pin+Extension.swift`: map and grid presentation,
  user-defaults persistence of map regions, Core Data container loading and a
  UUID assignment. These are platform plumbing.
- `SearchResponse.swift`: modelled only as the datatypes `SearchResponses.*`. It
  has no behaviour.
