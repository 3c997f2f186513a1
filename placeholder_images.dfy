/**
 * The image helpers of `lib/placeholder-images.ts`: the card image for a city
 * name or airport code (an exact key, then a case-insensitive match of the
 * trimmed name in key order, then a default), the "optimized" variant, and
 * the hue that `getDestinationGradient` derives from a name by a 32-bit
 * string hash.
 */
module PlaceholderImages {
  import opened Wrappers
  import opened JsText

  /** The photo behind each table entry; every URL differs only in its photo id. */
  datatype Photo =
    | BarcelonaPhoto
    | LisbonPhoto
    | RomePhoto
    | ParisPhoto
    | LondonPhoto
    | BerlinPhoto
    | AmsterdamPhoto
    | PraguePhoto
    | ViennaPhoto
    | BudapestPhoto
    | AthensPhoto
    | MadridPhoto
    | MallorcaPhoto
    | IbizaPhoto
    | SantoriniPhoto
    | DubaiPhoto
    | MaldivesPhoto
    | WarsawPhoto
    | KrakowPhoto
    | GdanskPhoto
    | NewYorkPhoto
    | LosAngelesPhoto
    | SanFranciscoPhoto
    | TokyoPhoto
    | SingaporePhoto
    | BangkokPhoto
    | TravelPhoto   // the default image

  function PhotoId(p: Photo): (id: string)
  {
    match p
    case BarcelonaPhoto => "1583422409516-2895a77efded"
    case LisbonPhoto => "1585208798174-6cedd86e019a"
    case RomePhoto => "1552832230-c0197dd311b5"
    case ParisPhoto => "1502602898657-3e91760cbb34"
    case LondonPhoto => "1513635269975-59663e0ac1ad"
    case BerlinPhoto => "1560930950-5cc20e80e392"
    case AmsterdamPhoto => "1534351590666-13e3e96b5017"
    case PraguePhoto => "1541849546-216549ae216d"
    case ViennaPhoto => "1516550893923-42d28e5677af"
    case BudapestPhoto => "1541368376426-dea33aaee2e1"
    case AthensPhoto => "1555993539-1732b0258235"
    case MadridPhoto => "1539037116277-4db20889f2d4"
    case MallorcaPhoto => "1534367507873-d2d7e24c797f"
    case IbizaPhoto => "1598199604088-6d8e0c0f8cd7"
    case SantoriniPhoto => "1570077188670-e3a8d69ac5ff"
    case DubaiPhoto => "1512453979798-5ea266f8880c"
    case MaldivesPhoto => "1514282401047-d79a71a590e8"
    case WarsawPhoto => "1592308790932-0d29dd0df1e8"
    case KrakowPhoto => "1578616070222-a12c7d00ebfa"
    case GdanskPhoto => "1601823984263-b87b59798b70"
    case NewYorkPhoto => "1496442226666-8d4d0e62e6e9"
    case LosAngelesPhoto => "1534190760961-74e8c1c5c3da"
    case SanFranciscoPhoto => "1506146332389-18140dc7b2fb"
    case TokyoPhoto => "1540959733332-eab4deabeeaf"
    case SingaporePhoto => "1525625293386-3f8f99389edd"
    case BangkokPhoto => "1508009603885-50cf7c579365"
    case TravelPhoto => "1488646953014-85cb44e25828"
  }

  /** `cityImages`, in its key order, each key with its photo. */
  const CITY_IMAGES: seq<(string, Photo)> := [
    ("Barcelona", BarcelonaPhoto),
    ("BCN", BarcelonaPhoto),
    ("Lisbon", LisbonPhoto),
    ("Lisboa", LisbonPhoto),
    ("LIS", LisbonPhoto),
    ("Rome", RomePhoto),
    ("Roma", RomePhoto),
    ("FCO", RomePhoto),
    ("Paris", ParisPhoto),
    ("CDG", ParisPhoto),
    ("London", LondonPhoto),
    ("LHR", LondonPhoto),
    ("Berlin", BerlinPhoto),
    ("BER", BerlinPhoto),
    ("Amsterdam", AmsterdamPhoto),
    ("AMS", AmsterdamPhoto),
    ("Prague", PraguePhoto),
    ("Praha", PraguePhoto),
    ("PRG", PraguePhoto),
    ("Vienna", ViennaPhoto),
    ("VIE", ViennaPhoto),
    ("Budapest", BudapestPhoto),
    ("BUD", BudapestPhoto),
    ("Athens", AthensPhoto),
    ("ATH", AthensPhoto),
    ("Madrid", MadridPhoto),
    ("MAD", MadridPhoto),
    ("Mallorca", MallorcaPhoto),
    ("PMI", MallorcaPhoto),
    ("Ibiza", IbizaPhoto),
    ("IBZ", IbizaPhoto),
    ("Santorini", SantoriniPhoto),
    ("JTR", SantoriniPhoto),
    ("Dubai", DubaiPhoto),
    ("DXB", DubaiPhoto),
    ("Maldives", MaldivesPhoto),
    ("MLE", MaldivesPhoto),
    ("Warsaw", WarsawPhoto),
    ("Warszawa", WarsawPhoto),
    ("WAW", WarsawPhoto),
    ("Krakow", KrakowPhoto),
    ("Kraków", KrakowPhoto),
    ("KRK", KrakowPhoto),
    ("Gdansk", GdanskPhoto),
    ("Gdańsk", GdanskPhoto),
    ("GDN", GdanskPhoto),
    ("New York", NewYorkPhoto),
    ("NYC", NewYorkPhoto),
    ("JFK", NewYorkPhoto),
    ("Los Angeles", LosAngelesPhoto),
    ("LAX", LosAngelesPhoto),
    ("San Francisco", SanFranciscoPhoto),
    ("SFO", SanFranciscoPhoto),
    ("Tokyo", TokyoPhoto),
    ("NRT", TokyoPhoto),
    ("Singapore", SingaporePhoto),
    ("SIN", SingaporePhoto),
    ("Bangkok", BangkokPhoto),
    ("BKK", BangkokPhoto)
  ]

  const URL_HEAD := "https://images.unsplash.com/photo-"
  const URL_TAIL := "?w=800&h=600&fit=crop"

  /** The card image URL of a photo. */
  function PhotoUrl(p: Photo): string {
    URL_HEAD + PhotoId(p) + URL_TAIL
  }

  const DEFAULT_IMAGE := PhotoUrl(TravelPhoto)

  // ---------------------------------------------------------------- lookup

  /** The position of the first entry whose key is `key`, or -1. */
  function KeyIndex(t: seq<(string, Photo)>, key: string): (i: int)
    ensures -1 <= i < |t|
    ensures i >= 0 ==> t[i].0 == key && forall j :: 0 <= j < i ==> t[j].0 != key
    ensures i == -1 ==> forall j :: 0 <= j < |t| ==> t[j].0 != key
  {
    if t == [] then -1
    else if t[0].0 == key then 0
    else
      var i := KeyIndex(t[1..], key);
      if i == -1 then -1 else i + 1
  }

  /** `Object.keys(t).find(key => key.toLowerCase() === name.toLowerCase())`, as a position. */
  function KeyIndexIgnoringCase(t: seq<(string, Photo)>, name: string): (i: int)
    ensures -1 <= i < |t|
    ensures i >= 0 ==> Lower(t[i].0) == Lower(name) && forall j :: 0 <= j < i ==> Lower(t[j].0) != Lower(name)
    ensures i == -1 ==> forall j :: 0 <= j < |t| ==> Lower(t[j].0) != Lower(name)
  {
    if t == [] then -1
    else if Lower(t[0].0) == Lower(name) then 0
    else
      var i := KeyIndexIgnoringCase(t[1..], name);
      if i == -1 then -1 else i + 1
  }

  /**
   * `getCityImage` over a table `t`, as the photo it picks: that of the first
   * key equal to `destination`; failing that, of the first key equal to the
   * trimmed `destination` up to case; failing that, the default photo.
   */
  function PhotoFor(t: seq<(string, Photo)>, destination: string): (p: Photo)
    ensures p == TravelPhoto || exists i :: 0 <= i < |t| && p == t[i].1
  {
    var exact := KeyIndex(t, destination);
    if exact >= 0 then t[exact].1
    else
      var loose := KeyIndexIgnoringCase(t, Trim(destination));
      if loose >= 0 then t[loose].1 else TravelPhoto
  }

  /** A key equal to the destination wins: the first such key in table order. */
  lemma ExactKeyWins(t: seq<(string, Photo)>, destination: string, i: nat)
    requires i < |t| && t[i].0 == destination
    requires forall j :: 0 <= j < i ==> t[j].0 != destination
    ensures PhotoFor(t, destination) == t[i].1
  {
    var exact := KeyIndex(t, destination);
    assert exact == i;
  }

  /**
   * Without an exact key, the first key equal to the trimmed destination up
   * to case is taken.
   */
  lemma LooseKeyNext(t: seq<(string, Photo)>, destination: string, i: nat)
    requires forall j :: 0 <= j < |t| ==> t[j].0 != destination
    requires i < |t| && Lower(t[i].0) == Lower(Trim(destination))
    requires forall j :: 0 <= j < i ==> Lower(t[j].0) != Lower(Trim(destination))
    ensures PhotoFor(t, destination) == t[i].1
  {
    var loose := KeyIndexIgnoringCase(t, Trim(destination));
    assert loose == i;
  }

  /** With neither kind of match the default photo is used. */
  lemma NoKeyGivesDefault(t: seq<(string, Photo)>, destination: string)
    requires forall j :: 0 <= j < |t| ==> t[j].0 != destination && Lower(t[j].0) != Lower(Trim(destination))
    ensures PhotoFor(t, destination) == TravelPhoto
  {
    var loose := KeyIndexIgnoringCase(t, Trim(destination));
    assert loose == -1;
  }

  /** `getCityImage`: the URL of the photo picked from the city table. */
  function GetCityImage(destination: string): (url: string)
    ensures url == DEFAULT_IMAGE || exists i :: 0 <= i < |CITY_IMAGES| && url == PhotoUrl(CITY_IMAGES[i].1)
  {
    PhotoUrl(PhotoFor(CITY_IMAGES, destination))
  }

  // ---------------------------------------------------------------- optimized

  /** The leading run of digits of `s`. */
  function LeadingDigits(s: string): (r: string)
    ensures |r| <= |s| && AllDigits(r) && r == s[..|r|]
  {
    if s != [] && IsDigit(s[0]) then [s[0]] + LeadingDigits(s[1..]) else []
  }

  /** `url.match(/id\/(\d+)/)?.[1]`: the digits after the leftmost "id/" that has some. */
  function PicsumId(url: string): (r: Option<string>)
    ensures r.Some? ==> r.value != [] && AllDigits(r.value)
    decreases |url|
  {
    if |url| >= 4 && url[..3] == "id/" && IsDigit(url[3]) then Some(LeadingDigits(url[3..]))
    else if url == [] then None
    else PicsumId(url[1..])
  }

  /**
   * `getCityImageOptimized`: a Picsum URL would be rebuilt with the given size;
   * any other is returned as it is. No table URL is a Picsum URL, so the result
   * is always `getCityImage`'s.
   */
  function GetCityImageOptimized(destination: string, width: int, height: int): (url: string)
    ensures url == GetCityImage(destination)
  {
    UrlNeverPicsum(PhotoFor(CITY_IMAGES, destination));
    var baseUrl := GetCityImage(destination);
    if Includes(baseUrl, "picsum.photos") then
      "https://picsum.photos/id/" + PicsumId(baseUrl).GetOr("undefined") + "/" + IntToString(width) + "/" + IntToString(height)
    else baseUrl
  }

  /** `s` has `x` immediately followed by `y` somewhere. */
  predicate HasPair(s: string, x: char, y: char) {
    exists k :: 0 <= k < |s| - 1 && s[k] == x && s[k + 1] == y
  }

  /** A string containing `p` contains the first two characters of `p` side by side. */
  lemma {:induction false} IncludesHasPair(s: string, p: string)
    requires |p| >= 2
    ensures Includes(s, p) ==> HasPair(s, p[0], p[1])
    decreases |s|
  {
    if StartsWith(s, p) {
      assert s[..|p|][0] == s[0] && s[..|p|][1] == s[1];
    } else if s != [] {
      IncludesHasPair(s[1..], p);
      if Includes(s[1..], p) {
        var k :| 0 <= k < |s[1..]| - 1 && s[1..][k] == p[0] && s[1..][k + 1] == p[1];
        assert s[k + 1] == p[0] && s[k + 2] == p[1];
      }
    }
  }

  /** A pair can only appear in a concatenation inside a part or across the seam. */
  lemma PairAppend(a: string, b: string, x: char, y: char)
    requires !HasPair(a, x, y) && !HasPair(b, x, y)
    requires a == [] || b == [] || a[|a| - 1] != x || b[0] != y
    ensures !HasPair(a + b, x, y)
  {
    var s := a + b;
    forall k | 0 <= k < |s| - 1 ensures !(s[k] == x && s[k + 1] == y) {
      if k + 1 < |a| {
        assert s[k] == a[k] && s[k + 1] == a[k + 1];
      } else if k >= |a| {
        assert s[k] == b[k - |a|] && s[k + 1] == b[k - |a| + 1];
      }
    }
  }

  lemma NoPairWithout(s: string, x: char, y: char)
    requires x !in s || y !in s
    ensures !HasPair(s, x, y)
  {
  }

  // The id literals are checked a few at a time: each check walks a whole literal.

  lemma IdsHaveNoI1()
    ensures 'i' !in "1583422409516-2895a77efded"
    ensures 'i' !in "1585208798174-6cedd86e019a"
    ensures 'i' !in "1552832230-c0197dd311b5"
  {
  }

  lemma IdsHaveNoI2()
    ensures 'i' !in "1502602898657-3e91760cbb34"
    ensures 'i' !in "1513635269975-59663e0ac1ad"
    ensures 'i' !in "1560930950-5cc20e80e392"
  {
  }

  lemma IdsHaveNoI3()
    ensures 'i' !in "1534351590666-13e3e96b5017"
    ensures 'i' !in "1541849546-216549ae216d"
    ensures 'i' !in "1516550893923-42d28e5677af"
  {
  }

  lemma IdsHaveNoI4()
    ensures 'i' !in "1541368376426-dea33aaee2e1"
    ensures 'i' !in "1555993539-1732b0258235"
    ensures 'i' !in "1539037116277-4db20889f2d4"
  {
  }

  lemma IdsHaveNoI5()
    ensures 'i' !in "1534367507873-d2d7e24c797f"
    ensures 'i' !in "1598199604088-6d8e0c0f8cd7"
    ensures 'i' !in "1570077188670-e3a8d69ac5ff"
  {
  }

  lemma IdsHaveNoI6()
    ensures 'i' !in "1512453979798-5ea266f8880c"
    ensures 'i' !in "1514282401047-d79a71a590e8"
    ensures 'i' !in "1592308790932-0d29dd0df1e8"
  {
  }

  lemma IdsHaveNoI7()
    ensures 'i' !in "1578616070222-a12c7d00ebfa"
    ensures 'i' !in "1601823984263-b87b59798b70"
    ensures 'i' !in "1496442226666-8d4d0e62e6e9"
  {
  }

  lemma IdsHaveNoI8()
    ensures 'i' !in "1534190760961-74e8c1c5c3da"
    ensures 'i' !in "1506146332389-18140dc7b2fb"
    ensures 'i' !in "1540959733332-eab4deabeeaf"
  {
  }

  lemma IdsHaveNoI9()
    ensures 'i' !in "1525625293386-3f8f99389edd"
    ensures 'i' !in "1508009603885-50cf7c579365"
    ensures 'i' !in "1488646953014-85cb44e25828"
  {
  }

  /** Photo ids are digits, dashes and the hex letters a-f, so never hold an 'i'. */
  lemma PhotoIdHasNoI(p: Photo)
    ensures 'i' !in PhotoId(p)
  {
    IdsHaveNoI1();
    IdsHaveNoI2();
    IdsHaveNoI3();
    IdsHaveNoI4();
    IdsHaveNoI5();
    IdsHaveNoI6();
    IdsHaveNoI7();
    IdsHaveNoI8();
    IdsHaveNoI9();
  }

  lemma HeadPiecesHaveNoPair()
    ensures !HasPair("https://", 'p', 'i') && !HasPair("images.", 'p', 'i')
    ensures !HasPair("unsplash.com/photo-", 'p', 'i')
  {
    NoPairWithout("https://", 'p', 'i');
    NoPairWithout("images.", 'p', 'i');
    NoPairWithout("unsplash.com/photo-", 'p', 'i');
  }

  /** The head of an image URL has no 'p' followed by an 'i', and ends in '-'. */
  lemma HeadHasNoPair()
    ensures !HasPair(URL_HEAD, 'p', 'i') && URL_HEAD[|URL_HEAD| - 1] == '-'
  {
    assert URL_HEAD == "https://" + "images." + "unsplash.com/photo-";
    HeadPiecesHaveNoPair();
    PairAppend("https://", "images.", 'p', 'i');
    PairAppend("https://" + "images.", "unsplash.com/photo-", 'p', 'i');
  }

  /** The tail of an image URL has no 'p' followed by an 'i', and starts with '?'. */
  lemma TailHasNoPair()
    ensures !HasPair(URL_TAIL, 'p', 'i') && URL_TAIL[0] == '?'
  {
    assert URL_TAIL == "?w=800&h=600&f" + "it=cro" + "p";
    NoPairWithout("?w=800&h=600&f", 'p', 'i');
    NoPairWithout("it=cro", 'p', 'i');
    NoPairWithout("p", 'p', 'i');
    PairAppend("?w=800&h=600&f", "it=cro", 'p', 'i');
    PairAppend("?w=800&h=600&f" + "it=cro", "p", 'p', 'i');
  }

  /** An image URL whose id holds no 'i' never mentions Picsum. */
  lemma UnsplashNeverPicsum(id: string)
    requires 'i' !in id
    ensures !Includes(URL_HEAD + id + URL_TAIL, "picsum.photos")
  {
    HeadHasNoPair();
    TailHasNoPair();
    NoPairWithout(id, 'p', 'i');
    PairAppend(URL_HEAD, id, 'p', 'i');
    PairAppend(URL_HEAD + id, URL_TAIL, 'p', 'i');
    IncludesHasPair(URL_HEAD + id + URL_TAIL, "picsum.photos");
  }

  /** No image URL of the table, nor the default, mentions Picsum. */
  lemma UrlNeverPicsum(p: Photo)
    ensures !Includes(PhotoUrl(p), "picsum.photos")
  {
    PhotoIdHasNoI(p);
    UnsplashNeverPicsum(PhotoId(p));
  }

  // ---------------------------------------------------------------- hue

  const TWO_32 := 0x1_0000_0000
  const TWO_31 := 0x8000_0000

  /** ToInt32: the signed 32-bit value congruent to `x`. */
  function Int32(x: int): (r: int)
    ensures -TWO_31 <= r < TWO_31 && (x - r) % TWO_32 == 0
  {
    var m := x % TWO_32;
    if m >= TWO_31 then m - TWO_32 else m
  }

  /** One step of the hash: `code + ((hash << 5) - hash)`, the shift on the 32-bit value. */
  function HashStep(hash: int, code: int): (next: int)
    // the shifted term is a 32-bit integer congruent to 32 * hash modulo 2^32
    ensures var shifted := next - code + hash;
            -TWO_31 <= shifted < TWO_31 && (shifted - 32 * hash) % TWO_32 == 0
  {
    ShiftCongruence(hash);
    code + (Int32(Int32(hash) * 32) - hash)
  }

  /** Wrapping before and after the multiplication stays congruent to the exact product. */
  lemma ShiftCongruence(hash: int)
    ensures (Int32(Int32(hash) * 32) - 32 * hash) % TWO_32 == 0
  {
    var a := Int32(hash);
    var q1 := (hash - a) / TWO_32;
    assert hash - a == TWO_32 * q1;
    var b := Int32(a * 32);
    var q2 := (a * 32 - b) / TWO_32;
    assert a * 32 - b == TWO_32 * q2;
    assert b - 32 * hash == TWO_32 * (-(q2 + 32 * q1));
  }

  /** The hash of a sequence of code units, folded from the left starting at 0. */
  function Hash(units: seq<int>): (hash: int)
    ensures units == [] ==> hash == 0
    ensures |units| == 1 ==> hash == units[0]
    decreases |units|
  {
    if units == [] then 0 else HashStep(Hash(units[..|units| - 1]), units[|units| - 1])
  }

  /** `Math.abs(hash % 360)` with the truncating `%`: `|hash|` reduced modulo 360. */
  function Hue(hash: int): (h: int)
    ensures 0 <= h < 360
    ensures hash >= 0 ==> (hash - h) % 360 == 0
    ensures hash < 0 ==> (hash + h) % 360 == 0
  {
    if hash >= 0 then hash % 360 else (-hash) % 360
  }

  /** The hue of a destination's gradient. */
  method DestinationHue(destination: string) returns (hue: int)
    ensures hue == Hue(Hash(Utf16(destination)))
    ensures 0 <= hue < 360
  {
    var units := Utf16(destination);
    var hash := 0;
    for i := 0 to |units|
      invariant hash == Hash(units[..i])
    {
      assert units[..i + 1][..i] == units[..i];
      hash := HashStep(hash, units[i]);
    }
    assert units[..|units|] == units;
    hue := Hue(hash);
  }
}
