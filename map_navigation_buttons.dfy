/**
 * The navigation buttons of a spot (components/MapNavigationButtons.tsx):
 * the Kakao, Naver and Google Maps links, the in-app map link, and which
 * buttons are shown.  `numStr` is JavaScript's number-to-text conversion.
 * Styles, icons and the click handlers' window and router calls are not
 * modelled; a button is its kind and its target.
 */
module MapNavigationButtons {
  import opened Js
  import opened Text

  /** The Kakao Maps directions link: the encoded name, then the latitude and longitude after commas. */
  function KakaoUrl(name: string, latitude: real, longitude: real, numStr: real -> string): string
  {
    KakaoPrefix + EncodeURIComponent(name) + "," + numStr(latitude) + "," + numStr(longitude)
  }

  const KakaoPrefix := "https://map.kakao.com/link/to/"

  /** The text Naver Maps searches for: the address when it is a non-empty string, else the name. */
  function NaverQuery(name: string, address: Option<string>): (q: string)
    ensures address.Some? && address.value != "" ==> q == address.value
    ensures address.None? || address.value == "" ==> q == name
  {
    OrStr(address, name)
  }

  function NaverUrl(name: string, address: Option<string>): string
  {
    "https://map.naver.com/p/search/" + EncodeURIComponent(NaverQuery(name, address))
  }

  /** The Google Maps directions link: the coordinates as destination, the encoded name as place id. */
  function GoogleUrl(name: string, latitude: real, longitude: real, numStr: real -> string): string
  {
    "https://www.google.com/maps/dir/?api=1&destination=" + numStr(latitude) + "," + numStr(longitude)
    + "&destination_place_id=" + EncodeURIComponent(name)
  }

  /** The in-app route to the map page centred on the spot. */
  function MapLinkPath(name: string, latitude: real, longitude: real, numStr: real -> string): string
  {
    "/?lat=" + numStr(latitude) + "&lng=" + numStr(longitude) + "&name=" + EncodeURIComponent(name)
  }

  datatype Button = MapLink(path: string) | Kakao(url: string) | Naver(url: string) | Google(url: string)

  /**
   * The buttons, top to bottom: the map link first when `showMapLink` is
   * set, then Kakao, Naver and Google for a domestic spot, or Google alone
   * for a spot abroad.
   */
  function Buttons(name: string, latitude: real, longitude: real, address: Option<string>,
                   isDomestic: bool, showMapLink: bool, numStr: real -> string): (bs: seq<Button>)
    ensures var top := if showMapLink then [MapLink(MapLinkPath(name, latitude, longitude, numStr))] else [];
      (isDomestic ==> bs == top + [Kakao(KakaoUrl(name, latitude, longitude, numStr)), Naver(NaverUrl(name, address)),
                                   Google(GoogleUrl(name, latitude, longitude, numStr))])
      && (!isDomestic ==> bs == top + [Google(GoogleUrl(name, latitude, longitude, numStr))])
    ensures (exists k :: 0 <= k < |bs| && bs[k].MapLink?) <==> showMapLink
    ensures (exists k :: 0 <= k < |bs| && bs[k].Kakao?) <==> isDomestic
    ensures exists k :: 0 <= k < |bs| && bs[k].Google?
  {
    var top := if showMapLink then [MapLink(MapLinkPath(name, latitude, longitude, numStr))] else [];
    var google := Google(GoogleUrl(name, latitude, longitude, numStr));
    if isDomestic then
      var bs := top + [Kakao(KakaoUrl(name, latitude, longitude, numStr)), Naver(NaverUrl(name, address)), google];
      assert bs[|top|].Kakao? && bs[|top| + 2].Google?;
      assert showMapLink ==> bs[0].MapLink?;
      bs
    else
      var bs := top + [google];
      assert bs[|top|].Google?;
      assert showMapLink ==> bs[0].MapLink?;
      bs
  }

  /** The defaults of the component's props: domestic, without the map link. */
  lemma DefaultButtons(name: string, latitude: real, longitude: real, address: Option<string>, numStr: real -> string)
    ensures |Buttons(name, latitude, longitude, address, true, false, numStr)| == 3
  {
  }

  /**
   * The Kakao link can be read back: `encodeURIComponent` escapes commas,
   * so the text between the prefix and the first comma is exactly the
   * encoded name, whatever the name holds.
   */
  lemma KakaoNameReadBack(name: string, latitude: real, longitude: real, numStr: real -> string)
    ensures var url := KakaoUrl(name, latitude, longitude, numStr);
      var rest := url[|KakaoPrefix|..];
      KakaoPrefix <= url && rest[..IndexOf(rest, ',')] == EncodeURIComponent(name)
  {
    var enc := EncodeURIComponent(name);
    var url := KakaoUrl(name, latitude, longitude, numStr);
    var tail := "," + numStr(latitude) + "," + numStr(longitude);
    assert url == KakaoPrefix + (enc + tail);
    var rest := url[|KakaoPrefix|..];
    assert rest == enc + tail;
    assert forall k :: 0 <= k < |enc| ==> rest[k] == enc[k] && IsUriSafe(enc[k]);
    assert rest[|enc|] == ',';
    FirstCommaAt(rest, |enc|);
    assert rest[..|enc|] == enc;
  }

  /** The first comma of `s` is at `i` when `s[i]` is one and no URI-safe prefix holds one. */
  lemma FirstCommaAt(s: string, i: nat)
    requires i < |s| && s[i] == ','
    requires forall k :: 0 <= k < i ==> IsUriSafe(s[k])
    ensures IndexOf(s, ',') == i
  {
  }
}
