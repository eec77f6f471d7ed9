/**
 * The card-data client (src/scryfall.ts) after each fetch: how an upstream payload
 * becomes the bot's image URL, named-card result or printing lists. The fetches
 * themselves are I/O; their outcome enters as an `ok` flag and the decoded body.
 */
module Scryfall {
  import opened Wrappers
  import opened Strings

  /** `image_uris`: missing members are None. */
  datatype ImageUris = ImageUris(large: Option<string>, normal: Option<string>, small: Option<string>)

  /** An element of `card_faces`. */
  datatype CardFace = CardFace(imageUris: Option<ImageUris>)

  /** The members of a card object the bot reads (`layout` is declared but never read). */
  datatype CardResponse = CardResponse(
    cardFaces: Option<seq<CardFace>>,
    scryfallUri: string,
    printsSearchUri: string,
    imageUris: Option<ImageUris>)

  /** What `getNamedUrl` returns for a found card; `namedUrl` may be missing or empty. */
  datatype NamedCard = NamedCard(namedUrl: Option<string>, externalUrl: string, printsSearchUri: string)

  /** An element of the prints search `data`. */
  datatype Printing = Printing(setCode: string, collectorNumber: string, imageUris: Option<ImageUris>, scryfallUri: string)

  /** An element of `sets`; `setCode` is the `set` member (a reserved word in Dafny). */
  datatype SetEntry = SetEntry(setCode: string, collectorNumber: string)

  /** An element of `cardImages`. */
  datatype CardImage = CardImage(setCode: string, collectorNumber: string, url: string, uri: string)

  /** What `getAutoCompleteSets` returns: two parallel views of the same printings. */
  datatype Printings = Printings(sets: seq<SetEntry>, cardImages: seq<CardImage>)

  // ---------------------------------------------------------------------------
  // Image choice.

  /** `image_uris?.large || image_uris?.normal || image_uris?.small`. */
  function PreferredImage(iu: Option<ImageUris>): (r: Option<string>)
    ensures iu.None? ==> r.None?
    ensures iu.Some? && Truthy(iu.value.large) ==> r == iu.value.large
    ensures iu.Some? && !Truthy(iu.value.large) && Truthy(iu.value.normal) ==> r == iu.value.normal
    ensures iu.Some? && !Truthy(iu.value.large) && !Truthy(iu.value.normal) ==> r == iu.value.small
    ensures Truthy(r) <==> iu.Some? && (Truthy(iu.value.large) || Truthy(iu.value.normal) || Truthy(iu.value.small))
  {
    match iu
    case None => None
    case Some(u) =>
      if Truthy(u.large) then u.large
      else if Truthy(u.normal) then u.normal
      else u.small
  }

  /** `(… || … || …) ?? ""`: always a string, empty when no image is present and non-empty. */
  function ImageUrl(iu: Option<ImageUris>): (url: string)
    ensures url == "" <==> !(iu.Some? && (Truthy(iu.value.large) || Truthy(iu.value.normal) || Truthy(iu.value.small)))
    ensures url != "" ==> Some(url) in [iu.value.large, iu.value.normal, iu.value.small]
    ensures iu.Some? && Truthy(iu.value.large) ==> url == iu.value.large.value
    ensures iu.Some? && !Truthy(iu.value.large) && Truthy(iu.value.normal) ==> url == iu.value.normal.value
    ensures iu.Some? && !Truthy(iu.value.large) && !Truthy(iu.value.normal) && Truthy(iu.value.small) ==>
      url == iu.value.small.value
  {
    PreferredImage(iu).GetOr("")
  }

  /** `card_faces?.every((face) => face.image_uris)`: present, and every face has image links. */
  predicate AllFacesHaveImages(faces: Option<seq<CardFace>>) {
    faces.Some? && forall k :: 0 <= k < |faces.value| ==> faces.value[k].imageUris.Some?
  }

  /** An element of an array given to `join`: a missing `large` renders as the empty string. */
  function FaceLarge(face: CardFace): string
    requires face.imageUris.Some?
  {
    face.imageUris.value.large.GetOr("")
  }

  /** The TypeError raised when `card_faces[0]` or `card_faces[1]` is read past the end of the array. */
  const MISSING_FACE := "TypeError: Cannot read properties of undefined (reading 'image_uris')"

  // ---------------------------------------------------------------------------
  // The four lookups.

  /**
   * `getRandomUrl`: a non-ok response throws with the status line (and the body text
   * when there is one); otherwise the card's large image, which throws when the card
   * has no `image_uris`.
   */
  function RandomUrl(ok: bool, url: string, status: nat, statusText: string, errorBody: Option<string>,
                     data: CardResponse): (r: Completion<Option<string>>)
    ensures !ok ==> r.Throw? && StartsWith(r.message, "Error fetching " + url + ": ")
    ensures !ok && Truthy(errorBody) ==> r.message == FetchError(url, status, statusText) + " \n\n " + errorBody.value
    ensures !ok && !Truthy(errorBody) ==> r.message == FetchError(url, status, statusText)
    ensures ok ==> (r.Normal? <==> data.imageUris.Some?)
    ensures ok && data.imageUris.Some? ==> r.value == data.imageUris.value.large
  {
    if !ok then
      var base := FetchError(url, status, statusText);
      Throw(if Truthy(errorBody) then base + " \n\n " + errorBody.value else base)
    else if data.imageUris.None? then Throw("TypeError: Cannot read properties of null (reading 'large')")
    else Normal(data.imageUris.value.large)
  }

  /** The status line of a failed fetch: the URL, the decimal status code and the status text. */
  function FetchError(url: string, status: nat, statusText: string): (m: string)
    ensures StartsWith(m, "Error fetching " + url + ": ")
    ensures var code := m[|"Error fetching " + url + ": "|..];
      exists d :: 0 < |d| && AllDigits(d) && DecimalValue(d) == status && (d[0] != '0' || |d| == 1)
                  && code == d + " " + statusText
  {
    var prefix, code := "Error fetching " + url + ": ", NatToDecimal(status);
    var m := prefix + code + " " + statusText;
    assert m[|prefix|..] == code + " " + statusText;
    m
  }

  /**
   * `getNamedUrl`: null for a non-ok response. When every face of `card_faces` has
   * image links, the first two faces' large images joined by a space (reading a
   * missing first or second face throws); otherwise the preferred single image. The
   * card's links are passed through unchanged.
   */
  function NamedUrl(ok: bool, data: CardResponse): (r: Completion<Option<NamedCard>>)
    ensures !ok ==> r == Normal(None)
    ensures ok ==> (r.Throw? <==> AllFacesHaveImages(data.cardFaces) && |data.cardFaces.value| < 2)
    ensures r.Normal? && r.value.Some? ==>
      && r.value.value.externalUrl == data.scryfallUri
      && r.value.value.printsSearchUri == data.printsSearchUri
    ensures ok && AllFacesHaveImages(data.cardFaces) && |data.cardFaces.value| >= 2 ==>
      r == Normal(Some(NamedCard(
        Some(FaceLarge(data.cardFaces.value[0]) + " " + FaceLarge(data.cardFaces.value[1])),
        data.scryfallUri, data.printsSearchUri)))
    ensures ok && !AllFacesHaveImages(data.cardFaces) ==>
      r == Normal(Some(NamedCard(PreferredImage(data.imageUris), data.scryfallUri, data.printsSearchUri)))
  {
    if !ok then Normal(None)
    else if AllFacesHaveImages(data.cardFaces) then
      var faces := data.cardFaces.value;
      if |faces| < 2 then Throw(MISSING_FACE)
      else Normal(Some(NamedCard(Some(FaceLarge(faces[0]) + " " + FaceLarge(faces[1])),
                                 data.scryfallUri, data.printsSearchUri)))
    else Normal(Some(NamedCard(PreferredImage(data.imageUris), data.scryfallUri, data.printsSearchUri)))
  }

  /** `getAutoCompleteNames`: null for a non-ok response, otherwise `result.data` as it came. */
  function AutoCompleteNames(ok: bool, data: seq<string>): (r: Option<seq<string>>)
    ensures r.None? <==> !ok
    ensures ok ==> r.value == data
  {
    if ok then Some(data) else None
  }

  /** `sets`: each printing's set and collector number, in order. */
  function SetsOf(data: seq<Printing>): (r: seq<SetEntry>)
    ensures |r| == |data|
    ensures forall k :: 0 <= k < |data| ==>
      r[k].setCode == data[k].setCode && r[k].collectorNumber == data[k].collectorNumber
  {
    if data == [] then [] else [SetEntry(data[0].setCode, data[0].collectorNumber)] + SetsOf(data[1..])
  }

  /** `cardImages`: each printing's set, collector number, image URL and page link, in order. */
  function CardImagesOf(data: seq<Printing>): (r: seq<CardImage>)
    ensures |r| == |data|
    ensures forall k :: 0 <= k < |data| ==>
      && r[k].setCode == data[k].setCode && r[k].collectorNumber == data[k].collectorNumber
      && r[k].url == ImageUrl(data[k].imageUris) && r[k].uri == data[k].scryfallUri
  {
    if data == [] then []
    else
      var x := data[0];
      [CardImage(x.setCode, x.collectorNumber, ImageUrl(x.imageUris), x.scryfallUri)] + CardImagesOf(data[1..])
  }

  /**
   * `getAutoCompleteSets`: the named lookup first (its throw propagates, its null is
   * returned), then the prints search at its `printsSearchUri`; null when that
   * response is not ok, otherwise the two parallel views of its `data`.
   */
  function AutoCompleteSets(named: Completion<Option<NamedCard>>, printsOk: bool, data: seq<Printing>)
    : (r: Completion<Option<Printings>>)
    ensures named.Throw? <==> r.Throw?
    ensures named.Throw? ==> r.message == named.message
    ensures r.Normal? && r.value.Some? <==> named.Normal? && named.value.Some? && printsOk
    ensures r.Normal? && r.value.Some? ==>
      var p := r.value.value;
      && |p.sets| == |data| && |p.cardImages| == |data|
      && forall k :: 0 <= k < |data| ==>
        && p.sets[k].setCode == p.cardImages[k].setCode == data[k].setCode
        && p.sets[k].collectorNumber == p.cardImages[k].collectorNumber == data[k].collectorNumber
        && p.cardImages[k].url == ImageUrl(data[k].imageUris)
        && p.cardImages[k].uri == data[k].scryfallUri
  {
    match named
    case Throw(m) => Throw(m)
    case Normal(None) => Normal(None)
    case Normal(Some(_)) =>
      if !printsOk then Normal(None)
      else Normal(Some(Printings(SetsOf(data), CardImagesOf(data))))
  }

  // ---------------------------------------------------------------------------

  /** A card with two illustrated faces shows both large images, whatever its own `image_uris` say. */
  lemma TwoFacedCard(front: string, back: string, rest: seq<CardFace>, uri: string, prints: string, iu: Option<ImageUris>)
    requires forall k :: 0 <= k < |rest| ==> rest[k].imageUris.Some?
    ensures var faces := [CardFace(Some(ImageUris(Some(front), None, None))),
                          CardFace(Some(ImageUris(Some(back), None, None)))] + rest;
      NamedUrl(true, CardResponse(Some(faces), uri, prints, iu)) == Normal(Some(NamedCard(Some(front + " " + back), uri, prints)))
  {
    var faces := [CardFace(Some(ImageUris(Some(front), None, None))),
                  CardFace(Some(ImageUris(Some(back), None, None)))] + rest;
    assert forall k :: 0 <= k < |faces| ==> faces[k].imageUris.Some? by {
      forall k | 0 <= k < |faces| ensures faces[k].imageUris.Some? {
        if k >= 2 {
          assert faces[k] == rest[k - 2];
        }
      }
    }
  }

  /** The cardImages view projects onto the sets view. */
  lemma CardImagesProjectToSets(data: seq<Printing>)
    ensures var imgs := CardImagesOf(data);
      seq(|imgs|, k requires 0 <= k < |imgs| => SetEntry(imgs[k].setCode, imgs[k].collectorNumber)) == SetsOf(data)
  {
  }
}
