/**
  The two Flickr endpoints the client calls and the URL text each one becomes:
  a `flickr.photos.search` query near a coordinate, and the static image of one
  photo. Latitude and longitude arrive as the text Swift's interpolation gives
  their `Double` values; the API key is a parameter.
 */
module Endpoints {
  import opened Wrappers
  import opened Text
  import opened QueryStrings

  /** The REST endpoint every search goes to. */
  const Base: string := "https://www.flickr.com/services/rest"

  /** The host and leading slash of every static image URL. */
  const PhotoBase: string := "https://live.staticflickr.com/"

  datatype Endpoint =
    | Search(latitude: string, longitude: string, page: int := 1)
    | Photo(serverId: string, photoId: string, secret: string)

  /** The URL text of an endpoint. */
  function StringValue(e: Endpoint, apiKey: string): (url: string) {
    match e
    case Search(latitude, longitude, page) =>
      Base + "?method=flickr.photos.search&api_key=" + apiKey + "&lat=" + latitude + "&lon=" + longitude
      + "&page=" + IntToString(page) + "&per_page=10&format=json&nojsoncallback=1"
    case Photo(serverId, photoId, secret) =>
      PhotoBase + serverId + "/" + photoId + "_" + secret + ".jpg"
  }

  // ----- The photo URL and its reading back -----

  /** The (server, id, secret) triple a static image URL names, or None if it is not one. */
  function ParsePhotoUrl(url: string): (r: Option<(string, string, string)>) {
    if |url| >= |PhotoBase| + 4 && url[..|PhotoBase|] == PhotoBase && url[|url| - 4..] == ".jpg" then
      var path := url[|PhotoBase|..|url| - 4];
      if '/' in path then
        var i := IndexOf(path, '/');
        var file := path[i + 1..];
        if '_' in file then
          var j := IndexOf(file, '_');
          Some((path[..i], file[..j], file[j + 1..]))
        else None
      else None
    else None
  }

  /** Where the pieces of `base + server + [slash] + id + [underscore] + secret + ext` sit. */
  lemma PhotoPathPieces(base: string, server: string, slash: char, id: string, underscore: char, secret: string, ext: string)
    ensures var url := base + server + [slash] + id + [underscore] + secret + ext;
      var file := id + [underscore] + secret;
      && |url| >= |base| + |ext|
      && url[..|base|] == base
      && url[|url| - |ext|..] == ext
      && url[|base|..|url| - |ext|] == server + [slash] + file
      && (server + [slash] + file)[..|server|] == server
      && (server + [slash] + file)[|server| + 1..] == file
      && file[..|id|] == id
      && file[|id| + 1..] == secret
  {
  }

  /**
    A photo URL names exactly the photo it was built from, as long as the server
    id has no '/' and the photo id no '_' (Flickr's are decimal numbers). The
    API key plays no part in it.
   */
  lemma PhotoUrlRoundTrip(serverId: string, photoId: string, secret: string)
    requires '/' !in serverId && '_' !in photoId
    ensures forall apiKey :: ParsePhotoUrl(StringValue(Photo(serverId, photoId, secret), apiKey))
                             == Some((serverId, photoId, secret))
  {
    assert "/" == ['/'] && "_" == ['_'];
    PhotoPathPieces(PhotoBase, serverId, '/', photoId, '_', secret, ".jpg");
    IndexOfAfter(serverId, '/', photoId + ['_'] + secret);
    IndexOfAfter(photoId, '_', secret);
  }

  /**
    The photo URL tells photos apart, so it is usable as a cache key: when each
    server has no '/' and each id no '_', two photos with the same URL have the
    same server, id and secret, whatever keys the two URLs were built with.
   */
  lemma PhotoUrlInjective(a: Endpoint, b: Endpoint, apiKeyA: string, apiKeyB: string)
    requires a.Photo? && '/' !in a.serverId && '_' !in a.photoId
    requires b.Photo? && '/' !in b.serverId && '_' !in b.photoId
    requires StringValue(a, apiKeyA) == StringValue(b, apiKeyB)
    ensures a == b
  {
    PhotoUrlRoundTrip(a.serverId, a.photoId, a.secret);
    PhotoUrlRoundTrip(b.serverId, b.photoId, b.secret);
    assert ParsePhotoUrl(StringValue(a, apiKeyA)) == Some((a.serverId, a.photoId, a.secret));
    assert ParsePhotoUrl(StringValue(b, apiKeyB)) == Some((b.serverId, b.photoId, b.secret));
  }

  /** Without the restriction on '_' in the photo id, two different photos share one URL. */
  lemma PhotoUrlCollision()
    ensures Photo("65535", "1_2", "ab") != Photo("65535", "1", "2_ab")
    ensures forall apiKey :: StringValue(Photo("65535", "1_2", "ab"), apiKey)
                             == StringValue(Photo("65535", "1", "2_ab"), apiKey)
  {
  }

  // ----- The search URL and its reading back -----

  /** The query fields a search sends, as (name, value) pairs in URL order. */
  function SearchFields(apiKey: string, latitude: string, longitude: string, page: int): seq<(string, string)> {
    [("method", "flickr.photos.search"), ("api_key", apiKey), ("lat", latitude), ("lon", longitude),
     ("page", IntToString(page)), ("per_page", "10"), ("format", "json"), ("nojsoncallback", "1")]
  }

  /** The fields of a URL on the search endpoint, or None if the URL is not on it. */
  function ParseSearchUrl(url: string): (r: Option<seq<(string, string)>>) {
    var prefix := Base + "?";
    if |url| >= |prefix| && url[..|prefix|] == prefix then ParseQuery(url[|prefix|..]) else None
  }

  lemma JoinCons(x: string, rest: seq<string>, sep: char)
    requires |rest| > 0
    ensures Join([x] + rest, sep) == x + [sep] + Join(rest, sep)
  {
    assert ([x] + rest)[1..] == rest;
  }

  /** Eight texts joined, written out. */
  lemma Join8(t: seq<string>, sep: char)
    requires |t| == 8
    ensures Join(t, sep) == t[0] + [sep] + t[1] + [sep] + t[2] + [sep] + t[3] + [sep] + t[4] + [sep] + t[5]
                          + [sep] + t[6] + [sep] + t[7]
  {
    assert t == [t[0]] + ([t[1]] + ([t[2]] + ([t[3]] + ([t[4]] + ([t[5]] + ([t[6]] + [t[7]]))))));
    JoinCons(t[6], [t[7]], sep);
    JoinCons(t[5], [t[6]] + [t[7]], sep);
    JoinCons(t[4], [t[5]] + ([t[6]] + [t[7]]), sep);
    JoinCons(t[3], [t[4]] + ([t[5]] + ([t[6]] + [t[7]])), sep);
    JoinCons(t[2], [t[3]] + ([t[4]] + ([t[5]] + ([t[6]] + [t[7]]))), sep);
    JoinCons(t[1], [t[2]] + ([t[3]] + ([t[4]] + ([t[5]] + ([t[6]] + [t[7]])))), sep);
    JoinCons(t[0], [t[1]] + ([t[2]] + ([t[3]] + ([t[4]] + ([t[5]] + ([t[6]] + [t[7]]))))), sep);
  }

  /** The search URL's text regrouped field by field, with its fixed pieces left abstract. */
  lemma SearchTextRegroup(base: string, q: string, amp: string, f0: string, k1: string, k2: string, k3: string,
                          k4: string, f5: string, f6: string, f7: string,
                          apiKey: string, latitude: string, longitude: string, pageText: string)
    ensures base + (q + f0 + amp + k1) + apiKey + (amp + k2) + latitude + (amp + k3) + longitude + (amp + k4)
            + pageText + (amp + f5 + amp + f6 + amp + f7)
         == base + q + (f0 + amp + (k1 + apiKey) + amp + (k2 + latitude) + amp + (k3 + longitude) + amp
            + (k4 + pageText) + amp + f5 + amp + f6 + amp + f7)
  {
  }

  lemma LeadPiece()
    ensures "?method=flickr.photos.search&api_key=" == "?" + ("method" + "=" + "flickr.photos.search") + "&" + ("api_key" + "=")
  {
  }

  lemma MiddlePieces()
    ensures "&lat=" == "&" + ("lat" + "=")
    ensures "&lon=" == "&" + ("lon" + "=")
    ensures "&page=" == "&" + ("page" + "=")
  {
  }

  lemma TailFields()
    ensures "per_page=10" == "per_page" + "=" + "10"
    ensures "format=json" == "format" + "=" + "json"
    ensures "nojsoncallback=1" == "nojsoncallback" + "=" + "1"
  {
  }

  lemma TailPiece()
    ensures "&per_page=10&format=json&nojsoncallback=1"
         == "&" + ("per_page" + "=" + "10") + "&" + ("format" + "=" + "json") + "&" + ("nojsoncallback" + "=" + "1")
  {
    TailFields();
  }

  /**
    The search URL is the search endpoint, '?', and the query string of the
    eight fields in order: the method, the key, the coordinate, the page, then
    ten results per page, JSON, and no callback wrapping.
   */
  lemma SearchUrlIsQuery(apiKey: string, latitude: string, longitude: string, page: int)
    ensures StringValue(Search(latitude, longitude, page), apiKey)
         == Base + "?" + Query(SearchFields(apiKey, latitude, longitude, page))
  {
    var pageText := IntToString(page);
    var fields := SearchFields(apiKey, latitude, longitude, page);
    Join8(FieldTexts(fields), '&');
    assert "&" == ['&'];
    SearchTextRegroup(Base, "?", "&", "method" + "=" + "flickr.photos.search", "api_key" + "=", "lat" + "=",
                      "lon" + "=", "page" + "=", "per_page" + "=" + "10", "format" + "=" + "json",
                      "nojsoncallback" + "=" + "1", apiKey, latitude, longitude, pageText);
    LeadPiece();
    MiddlePieces();
    TailPiece();
  }

  /** The search fields are well formed as long as the key and the coordinate texts have no '&'. */
  lemma SearchFieldsWellFormed(apiKey: string, latitude: string, longitude: string, page: int)
    requires '&' !in apiKey && '&' !in latitude && '&' !in longitude
    ensures WellFormed(SearchFields(apiKey, latitude, longitude, page))
  {
    IntToStringAlphabet(page);
    assert '&' !in IntToString(page);
  }

  /**
    A search URL reads back as exactly the fields the search meant to send, in
    order, as long as the key and the coordinate texts contain no '&'.
   */
  lemma SearchUrlRoundTrip(apiKey: string, latitude: string, longitude: string, page: int)
    requires '&' !in apiKey && '&' !in latitude && '&' !in longitude
    ensures ParseSearchUrl(StringValue(Search(latitude, longitude, page), apiKey))
         == Some(SearchFields(apiKey, latitude, longitude, page))
  {
    var fields := SearchFields(apiKey, latitude, longitude, page);
    SearchUrlIsQuery(apiKey, latitude, longitude, page);
    var url := StringValue(Search(latitude, longitude, page), apiKey);
    var prefix := Base + "?";
    assert url[..|prefix|] == prefix;
    assert url[|prefix|..] == Query(fields);
    SearchFieldsWellFormed(apiKey, latitude, longitude, page);
    QueryRoundTrip(fields);
  }

  lemma SearchFieldsLookup(apiKey: string, latitude: string, longitude: string, page: int)
    ensures Lookup(SearchFields(apiKey, latitude, longitude, page), "page") == Some(IntToString(page))
    ensures Lookup(SearchFields(apiKey, latitude, longitude, page), "per_page") == Some("10")
    ensures Lookup(SearchFields(apiKey, latitude, longitude, page), "format") == Some("json")
    ensures Lookup(SearchFields(apiKey, latitude, longitude, page), "nojsoncallback") == Some("1")
  {
    var fields := SearchFields(apiKey, latitude, longitude, page);
    LookupAt(fields, 4, "page");
    LookupAt(fields, 5, "per_page");
    LookupAt(fields, 6, "format");
    LookupAt(fields, 7, "nojsoncallback");
  }

  /**
    When the key and coordinate texts have no '&', the page a search URL asks
    for reads back as the page it was built with, and it asks for ten results
    per page in JSON without a callback. A key such as "x&page=7" adds an
    earlier page field that a lookup finds first; `SearchUrlFixedTail` is the
    statement that holds for all inputs.
   */
  lemma SearchUrlPage(apiKey: string, latitude: string, longitude: string, page: int)
    requires '&' !in apiKey && '&' !in latitude && '&' !in longitude
    ensures var fields := ParseSearchUrl(StringValue(Search(latitude, longitude, page), apiKey));
      && fields.Some?
      && Lookup(fields.value, "page").Some?
      && ParseInt(Lookup(fields.value, "page").value) == Some(page)
      && Lookup(fields.value, "per_page") == Some("10")
      && Lookup(fields.value, "format") == Some("json")
      && Lookup(fields.value, "nojsoncallback") == Some("1")
  {
    SearchUrlRoundTrip(apiKey, latitude, longitude, page);
    SearchFieldsLookup(apiKey, latitude, longitude, page);
    IntToStringRoundTrip(page);
  }

  /**
    When the key and coordinate texts have no '&', a search URL determines the
    key, the coordinate and the page it was built from.
   */
  lemma SearchUrlInjective(a: Endpoint, b: Endpoint, apiKeyA: string, apiKeyB: string)
    requires a.Search? && '&' !in apiKeyA && '&' !in a.latitude && '&' !in a.longitude
    requires b.Search? && '&' !in apiKeyB && '&' !in b.latitude && '&' !in b.longitude
    requires StringValue(a, apiKeyA) == StringValue(b, apiKeyB)
    ensures a == b && apiKeyA == apiKeyB
  {
    SearchUrlRoundTrip(apiKeyA, a.latitude, a.longitude, a.page);
    SearchUrlRoundTrip(apiKeyB, b.latitude, b.longitude, b.page);
    var fa := SearchFields(apiKeyA, a.latitude, a.longitude, a.page);
    var fb := SearchFields(apiKeyB, b.latitude, b.longitude, b.page);
    assert fa[4].1 == fb[4].1;
    IntToStringInjective(a.page, b.page);
  }

  /** Without the restriction on '&', two different searches share one URL. */
  lemma SearchUrlCollision(longitude: string, page: int)
    ensures StringValue(Search("c", longitude, page), "a&lat=b") == StringValue(Search("b&lat=c", longitude, page), "a")
  {
    var rest := "&lon=" + longitude + "&page=" + IntToString(page) + "&per_page=10&format=json&nojsoncallback=1";
    assert StringValue(Search("c", longitude, page), "a&lat=b")
        == Base + "?method=flickr.photos.search&api_key=" + "a&lat=b" + "&lat=" + "c" + rest;
    assert StringValue(Search("b&lat=c", longitude, page), "a")
        == Base + "?method=flickr.photos.search&api_key=" + "a" + "&lat=" + "b&lat=c" + rest;
    assert "a&lat=b" + "&lat=" + "c" == "a" + "&lat=" + "b&lat=c";
  }

  /** Every search URL, whatever its inputs, ends with the fixed page-size and format fields. */
  lemma SearchUrlFixedTail(e: Endpoint, apiKey: string)
    requires e.Search?
    ensures var url := StringValue(e, apiKey);
      var tail := "&per_page=10&format=json&nojsoncallback=1";
      |url| >= |tail| && url[|url| - |tail|..] == tail
  {
  }
}
