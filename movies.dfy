/** The payload of the "top 250 movies" request (MostPopularMovies.swift): the two
    records, the JSON keys they are decoded from, and the poster-URL rewrite. */
module Movies {
  import opened Wrappers
  import opened Foundation

  /** `MostPopularMovie`.  `imageURL` is the URL's `absoluteString`. */
  datatype MostPopularMovie = MostPopularMovie(title: string, rating: string, year: string, imageURL: string)

  /** `MostPopularMovies`. */
  datatype MostPopularMovies = MostPopularMovies(errorMessage: string, items: seq<MostPopularMovie>)

  // JSON keys: `CodingKeys` of `MostPopularMovie` and the property names of `MostPopularMovies`.
  const TitleKey: string := "fullTitle"
  const RatingKey: string := "imDbRating"
  const YearKey: string := "year"
  const ImageKey: string := "image"
  const ErrorMessageKey: string := "errorMessage"
  const ItemsKey: string := "items"

  /** What replaces everything from the first `"._"` of a poster URL on. */
  const ResizeSuffix: string := "._V0_UX600_.jpg"

  /** `"._"` occurs in `s` starting at index `i`. */
  predicate SeparatorAt(s: string, i: int) {
    0 <= i && i + 1 < |s| && s[i] == '.' && s[i + 1] == '_'
  }

  /** No occurrence of `"._"` in `s` starts before index `n`. */
  predicate SeparatorFreeBefore(s: string, n: int) {
    forall i :: 0 <= i < n ==> !SeparatorAt(s, i)
  }

  /** `s.components(separatedBy: "._")[0]`: the part of `s` before the first `"._"`,
      or all of `s` when it has none. */
  function FirstComponent(s: string): (r: string)
    ensures r <= s
    ensures SeparatorFreeBefore(s, |r|)
    ensures r == s || SeparatorAt(s, |r|)
  {
    if |s| < 2 then s
    else if s[0] == '.' && s[1] == '_' then ""
    else
      var rest := FirstComponent(s[1..]);
      assert forall i :: 1 <= i <= |rest| ==> (SeparatorAt(s, i) <==> SeparatorAt(s[1..], i - 1));
      [s[0]] + rest
  }

  /** A prefix of `s` that ends right before the first `"._"` (or is all of `s`
      when there is none) is the first component. */
  lemma FirstComponentUnique(s: string, k: string)
    requires k <= s && SeparatorFreeBefore(s, |k|)
    requires k == s || SeparatorAt(s, |k|)
    ensures FirstComponent(s) == k
  {
    var r := FirstComponent(s);
    assert |r| < |k| ==> SeparatorAt(s, |r|) && !SeparatorAt(s, |r|);
    assert |k| < |r| ==> SeparatorAt(s, |k|) && !SeparatorAt(s, |k|);
  }

  /** The string built at MostPopularMovies.swift:23. */
  function ResizedURLString(url: string): string {
    FirstComponent(url) + ResizeSuffix
  }

  /** `resizedImageURL`: the rewritten string when `URL(string:)` accepts it, the
      original URL otherwise. */
  function ResizedImageURL(movie: MostPopularMovie, isValidURL: string -> bool): (r: string)
    ensures isValidURL(ResizedURLString(movie.imageURL)) ==> r == ResizedURLString(movie.imageURL)
    ensures !isValidURL(ResizedURLString(movie.imageURL)) ==> r == movie.imageURL
  {
    var candidate := ResizedURLString(movie.imageURL);
    if isValidURL(candidate) then candidate else movie.imageURL
  }

  /** The rewritten string is a prefix of the URL that stops at its first `"._"`,
      followed by the fixed suffix. */
  lemma ResizedURLShape(url: string)
    ensures var r := ResizedURLString(url);
            var kept := r[..|r| - |ResizeSuffix|];
            && |r| >= |ResizeSuffix|
            && r == kept + ResizeSuffix
            && kept <= url
            && SeparatorFreeBefore(url, |kept|)
            && (kept == url || SeparatorAt(url, |kept|))
  {
    var r := ResizedURLString(url);
    assert r[..|r| - |ResizeSuffix|] == FirstComponent(url);
  }

  /** Without `"._"` the whole URL is kept and the suffix appended. */
  lemma ResizedURLWithoutSeparator(url: string)
    requires SeparatorFreeBefore(url, |url|)
    ensures ResizedURLString(url) == url + ResizeSuffix
  {
    FirstComponentUnique(url, url);
  }

  /** Resizing the rewritten string changes nothing. */
  lemma ResizedURLIdempotent(url: string)
    ensures ResizedURLString(ResizedURLString(url)) == ResizedURLString(url)
  {
    var k := FirstComponent(url);
    var s := k + ResizeSuffix;
    forall i | 0 <= i < |k|
      ensures !SeparatorAt(s, i)
    {
      if i + 1 < |k| {
        assert !SeparatorAt(url, i);
      } else {
        assert s[i + 1] == '.';
      }
    }
    FirstComponentUnique(s, k);
  }

  /** Resizing a movie whose poster URL was already resized gives the same URL,
      whether or not `URL(string:)` accepted the rewrite. */
  lemma ResizedImageURLIdempotent(movie: MostPopularMovie, isValidURL: string -> bool)
    ensures var once := ResizedImageURL(movie, isValidURL);
            ResizedImageURL(movie.(imageURL := once), isValidURL) == once
  {
    ResizedURLIdempotent(movie.imageURL);
  }

  /** The string stored under `key`, if the value there is a JSON string. */
  function StringField(fields: map<string, Json>, key: string): Option<string> {
    if key in fields && fields[key].JString? then Some(fields[key].text) else None
  }

  /** `MostPopularMovie.init(from:)`: every `CodingKeys` entry must be present as a
      string, and the image string must be accepted by `URL(string:)`; other keys
      are ignored. */
  function DecodeMovie(json: Json, isValidURL: string -> bool): (r: Option<MostPopularMovie>)
    ensures r.Some? <==>
      && json.JObject?
      && StringField(json.fields, TitleKey).Some?
      && StringField(json.fields, RatingKey).Some?
      && StringField(json.fields, YearKey).Some?
      && StringField(json.fields, ImageKey).Some?
      && isValidURL(json.fields[ImageKey].text)
    ensures r.Some? ==>
      && json.fields[TitleKey] == JString(r.value.title)
      && json.fields[RatingKey] == JString(r.value.rating)
      && json.fields[YearKey] == JString(r.value.year)
      && json.fields[ImageKey] == JString(r.value.imageURL)
  {
    match json
    case JObject(fields) =>
      var title := StringField(fields, TitleKey);
      var rating := StringField(fields, RatingKey);
      var year := StringField(fields, YearKey);
      var image := StringField(fields, ImageKey);
      if title.Some? && rating.Some? && year.Some? && image.Some? && isValidURL(image.value)
      then Some(MostPopularMovie(title.value, rating.value, year.value, image.value))
      else None
    case _ => None
  }

  /** Decoding `[MostPopularMovie]`: all elements or nothing. */
  function DecodeItems(elements: seq<Json>, isValidURL: string -> bool): (r: Option<seq<MostPopularMovie>>)
    ensures r.Some? ==>
      && |r.value| == |elements|
      && forall i :: 0 <= i < |elements| ==> DecodeMovie(elements[i], isValidURL) == Some(r.value[i])
    ensures r.None? ==> exists i :: 0 <= i < |elements| && DecodeMovie(elements[i], isValidURL).None?
  {
    if elements == [] then Some([])
    else
      match (DecodeMovie(elements[0], isValidURL), DecodeItems(elements[1..], isValidURL))
      case (Some(m), Some(ms)) => Some([m] + ms)
      case (None, _) => None
      case (_, None) => assert elements[1..][0] in elements; None
  }

  /** `MostPopularMovies.init(from:)`: a JSON object with a string `errorMessage`
      and an array `items` whose every element decodes; other keys are ignored. */
  function Decode(json: Json, isValidURL: string -> bool): (r: Option<MostPopularMovies>)
    ensures r.Some? <==>
      && json.JObject?
      && StringField(json.fields, ErrorMessageKey).Some?
      && ItemsKey in json.fields && json.fields[ItemsKey].JArray?
      && DecodeItems(json.fields[ItemsKey].elements, isValidURL).Some?
    ensures r.Some? ==>
      && json.fields[ErrorMessageKey] == JString(r.value.errorMessage)
      && DecodeItems(json.fields[ItemsKey].elements, isValidURL) == Some(r.value.items)
    ensures json.JObject? && ErrorMessageKey !in json.fields ==> r.None?
  {
    match json
    case JObject(fields) =>
      var message := StringField(fields, ErrorMessageKey);
      if message.Some? && ItemsKey in fields && fields[ItemsKey].JArray? then
        match DecodeItems(fields[ItemsKey].elements, isValidURL)
        case Some(items) => Some(MostPopularMovies(message.value, items))
        case None => None
      else None
    case _ => None
  }

  /** Keys other than `errorMessage` and `items` never change the outcome. */
  lemma DecodeIgnoresOtherKeys(fields: map<string, Json>, key: string, value: Json, isValidURL: string -> bool)
    requires key != ErrorMessageKey && key != ItemsKey
    ensures Decode(JObject(fields[key := value]), isValidURL) == Decode(JObject(fields), isValidURL)
  {
    var extended := fields[key := value];
    assert StringField(extended, ErrorMessageKey) == StringField(fields, ErrorMessageKey);
    assert (ItemsKey in extended) == (ItemsKey in fields);
    assert ItemsKey in fields ==> extended[ItemsKey] == fields[ItemsKey];
  }

  /** The JSON object a movie is decoded from, holding exactly its coding keys. */
  function MovieJson(movie: MostPopularMovie): Json {
    JObject(map[TitleKey := JString(movie.title), RatingKey := JString(movie.rating),
                YearKey := JString(movie.year), ImageKey := JString(movie.imageURL)])
  }

  /** The JSON array a list of movies is decoded from. */
  function ItemsJson(items: seq<MostPopularMovie>): (js: seq<Json>)
    ensures |js| == |items|
    ensures forall i :: 0 <= i < |items| ==> js[i] == MovieJson(items[i])
  {
    if items == [] then [] else [MovieJson(items[0])] + ItemsJson(items[1..])
  }

  /** The JSON document a payload is decoded from. */
  function PayloadJson(payload: MostPopularMovies): Json {
    JObject(map[ErrorMessageKey := JString(payload.errorMessage), ItemsKey := JArray(ItemsJson(payload.items))])
  }

  /** Every payload whose poster URLs are valid is decoded back from its JSON form:
      the coding keys lose and invent nothing. */
  lemma {:induction false} DecodeItemsRoundTrip(items: seq<MostPopularMovie>, isValidURL: string -> bool)
    requires forall i :: 0 <= i < |items| ==> isValidURL(items[i].imageURL)
    ensures DecodeItems(ItemsJson(items), isValidURL) == Some(items)
  {
    var js := ItemsJson(items);
    if items != [] {
      var m := items[0];
      assert MovieJson(m).fields[TitleKey] == JString(m.title);
      assert DecodeMovie(js[0], isValidURL) == Some(m);
      assert js[1..] == ItemsJson(items[1..]);
      DecodeItemsRoundTrip(items[1..], isValidURL);
      assert items == [m] + items[1..];
    }
  }

  lemma DecodeRoundTrip(payload: MostPopularMovies, isValidURL: string -> bool)
    requires forall i :: 0 <= i < |payload.items| ==> isValidURL(payload.items[i].imageURL)
    ensures Decode(PayloadJson(payload), isValidURL) == Some(payload)
  {
    var json := PayloadJson(payload);
    assert json.fields[ErrorMessageKey] == JString(payload.errorMessage);
    assert StringField(json.fields, ErrorMessageKey) == Some(payload.errorMessage);
    assert ItemsKey in json.fields && json.fields[ItemsKey].JArray?;
    DecodeItemsRoundTrip(payload.items, isValidURL);
    assert payload == MostPopularMovies(payload.errorMessage, payload.items);
  }

  /** The poster URL of the decoding fixture at MoviesLoaderTests.swift:28-47. */
  const PreyImage: string :=
    "https://m.media-amazon.com/images/M/MV5BMDBlMDYxMDktOTUxMS00MjcxLWE2YjQtNjNhMjNmN2Y3ZDA1XkEyXkFqcGdeQXVyMTM1MTE1NDMx._V1_Ratio0.6716_AL_.jpg"

  /** The one item of that fixture: it carries both `title` and `fullTitle`. */
  function PreyItem(): Json {
    JObject(map[
      "crew" := JString("Dan Trachtenberg (dir.), Amber Midthunder, Dakota Beavers"),
      "fullTitle" := JString("Prey (2022)"),
      "id" := JString("tt11866324"),
      "imDbRating" := JString("7.2"),
      "imDbRatingCount" := JString("93332"),
      "image" := JString(PreyImage),
      "rank" := JString("1"),
      "title" := JString("Prey"),
      "year" := JString("2022")])
  }

  /** The fixture decodes to one movie whose title is taken from `fullTitle`,
      not from `title`. */
  lemma DecodesPreyFixture(isValidURL: string -> bool)
    requires isValidURL(PreyImage)
    ensures Decode(JObject(map["errorMessage" := JString(""), "items" := JArray([PreyItem()])]), isValidURL)
         == Some(MostPopularMovies("", [MostPopularMovie("Prey (2022)", "7.2", "2022", PreyImage)]))
  {
    var item := PreyItem();
    assert StringField(item.fields, TitleKey) == Some("Prey (2022)");
    assert StringField(item.fields, RatingKey) == Some("7.2");
    assert StringField(item.fields, YearKey) == Some("2022");
    assert StringField(item.fields, ImageKey) == Some(PreyImage);
    var movie := MostPopularMovie("Prey (2022)", "7.2", "2022", PreyImage);
    assert DecodeMovie(item, isValidURL) == Some(movie);
    assert [item][1..] == [];
    assert DecodeItems([item][1..], isValidURL) == Some([]);
    assert [movie] + [] == [movie];
    assert DecodeItems([item], isValidURL) == Some([MostPopularMovie("Prey (2022)", "7.2", "2022", PreyImage)]);
  }

  /** The fixture at MoviesLoaderTests.swift:151-160 has no `errorMessage` and an
      item with neither `fullTitle`, `imDbRating` nor `image`: both are rejected. */
  lemma RejectsIncompleteFixture(isValidURL: string -> bool)
    ensures var item := JObject(map["title" := JString("Incomplete Movie"), "year" := JString("2023")]);
            && DecodeMovie(item, isValidURL).None?
            && Decode(JObject(map["items" := JArray([item])]), isValidURL).None?
  {
    var item := JObject(map["title" := JString("Incomplete Movie"), "year" := JString("2023")]);
    assert TitleKey !in item.fields;
  }
}
