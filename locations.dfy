/** The record model of the venue directory: the closed enumerations of
    venue types, cuisines and Ho Chi Minh City districts, the price band,
    the postal address and the `Location` record every page renders. */
module Locations {
  import opened Wrappers
  import opened Text

  // ---------------------------------------------------------------------
  // LocationType

  datatype LocationType = Restaurant | Cafe | Dessert | Spa | Bar | Bakery | CoffeeShop | Bistro {
    /** The string the enum member stands for. */
    function Value(): string {
      match this
      case Restaurant => "restaurant"
      case Cafe => "cafe"
      case Dessert => "dessert"
      case Spa => "spa"
      case Bar => "bar"
      case Bakery => "bakery"
      case CoffeeShop => "coffee shop"
      case Bistro => "bistro"
    }
  }

  /** `Object.values(LocationType)`, in declaration order. */
  function AllLocationTypes(): seq<LocationType>
  {
    [Restaurant, Cafe, Dessert, Spa, Bar, Bakery, CoffeeShop, Bistro]
  }

  /** The enum member whose value is `s`, if any. */
  function ParseLocationType(s: string): (r: Option<LocationType>)
    ensures r.Some? ==> r.value.Value() == s
  {
    if s == "restaurant" then Some(Restaurant)
    else if s == "cafe" then Some(Cafe)
    else if s == "dessert" then Some(Dessert)
    else if s == "spa" then Some(Spa)
    else if s == "bar" then Some(Bar)
    else if s == "bakery" then Some(Bakery)
    else if s == "coffee shop" then Some(CoffeeShop)
    else if s == "bistro" then Some(Bistro)
    else None
  }

  /** Parsing inverts `Value`, so distinct members have distinct values. */
  lemma LocationTypeRoundTrip(t: LocationType)
    ensures ParseLocationType(t.Value()) == Some(t)
  {
  }

  lemma LocationTypeValuesDistinct(a: LocationType, b: LocationType)
    ensures a.Value() == b.Value() <==> a == b
  {
    LocationTypeRoundTrip(a);
    LocationTypeRoundTrip(b);
  }

  /** Position of a member in declaration order. */
  function LocationTypeOrdinal(x: LocationType): nat {
    match x
    case Restaurant => 0
    case Cafe => 1
    case Dessert => 2
    case Spa => 3
    case Bar => 4
    case Bakery => 5
    case CoffeeShop => 6
    case Bistro => 7
  }

  /** Eight members, eight different lower-case values; exactly one of them
      contains a space. */
  lemma LocationTypeFacts()
    ensures |AllLocationTypes()| == 8
    ensures forall t: LocationType :: t in AllLocationTypes()
    ensures forall i, j :: 0 <= i < j < 8 ==> AllLocationTypes()[i] != AllLocationTypes()[j]
    ensures forall t: LocationType :: IsLowerCase(t.Value())
    ensures forall t: LocationType :: ' ' in t.Value() <==> t == CoffeeShop
  {
    var r := AllLocationTypes();
    forall x: LocationType ensures x in r {
      match x
      case Restaurant => assert r[0] == x;
      case Cafe => assert r[1] == x;
      case Dessert => assert r[2] == x;
      case Spa => assert r[3] == x;
      case Bar => assert r[4] == x;
      case Bakery => assert r[5] == x;
      case CoffeeShop => assert r[6] == x;
      case Bistro => assert r[7] == x;
    }
    forall i | 0 <= i < 8 ensures LocationTypeOrdinal(r[i]) == i {
      if i == 0 {
        assert r[i] == Restaurant;
      } else if i == 1 {
        assert r[i] == Cafe;
      } else if i == 2 {
        assert r[i] == Dessert;
      } else if i == 3 {
        assert r[i] == Spa;
      } else if i == 4 {
        assert r[i] == Bar;
      } else if i == 5 {
        assert r[i] == Bakery;
      } else if i == 6 {
        assert r[i] == CoffeeShop;
      }
    }
    forall i, j | 0 <= i < j < 8 ensures r[i] != r[j] {
      assert LocationTypeOrdinal(r[i]) == i && LocationTypeOrdinal(r[j]) == j;
    }
  }

  // ---------------------------------------------------------------------
  // Cuisine

  datatype Cuisine =
    | Vietnamese | Chinese | Japanese | Korean | Thai
    | American | Italian | French | Mexican
    | Pizza | Burger | Seafood | BBQ
    | International | Fusion | StreetFood | CafeCuisine | BakeryCuisine | DessertCuisine
  {
    /** The string the enum member stands for. */
    function Value(): string {
      match this
      case Vietnamese => "vietnamese"
      case Chinese => "chinese"
      case Japanese => "japanese"
      case Korean => "korean"
      case Thai => "thai"
      case American => "american"
      case Italian => "italian"
      case French => "french"
      case Mexican => "mexican"
      case Pizza => "pizza"
      case Burger => "burger"
      case Seafood => "seafood"
      case BBQ => "bbq"
      case International => "international"
      case Fusion => "fusion"
      case StreetFood => "street food"
      case CafeCuisine => "cafe"
      case BakeryCuisine => "bakery"
      case DessertCuisine => "dessert"
    }
  }

  /** `Object.values(Cuisine)`, in declaration order. */
  function AllCuisines(): seq<Cuisine>
  {
    [Vietnamese, Chinese, Japanese, Korean, Thai, American, Italian, French, Mexican,
     Pizza, Burger, Seafood, BBQ, International, Fusion, StreetFood,
     CafeCuisine, BakeryCuisine, DessertCuisine]
  }

  /** The enum member whose value is `s`, if any. */
  function ParseCuisine(s: string): (r: Option<Cuisine>)
    ensures r.Some? ==> r.value.Value() == s
  {
    if s == "vietnamese" then Some(Vietnamese)
    else if s == "chinese" then Some(Chinese)
    else if s == "japanese" then Some(Japanese)
    else if s == "korean" then Some(Korean)
    else if s == "thai" then Some(Thai)
    else if s == "american" then Some(American)
    else if s == "italian" then Some(Italian)
    else if s == "french" then Some(French)
    else if s == "mexican" then Some(Mexican)
    else if s == "pizza" then Some(Pizza)
    else if s == "burger" then Some(Burger)
    else if s == "seafood" then Some(Seafood)
    else if s == "bbq" then Some(BBQ)
    else if s == "international" then Some(International)
    else if s == "fusion" then Some(Fusion)
    else if s == "street food" then Some(StreetFood)
    else if s == "cafe" then Some(CafeCuisine)
    else if s == "bakery" then Some(BakeryCuisine)
    else if s == "dessert" then Some(DessertCuisine)
    else None
  }

  lemma CuisineRoundTrip(c: Cuisine)
    ensures ParseCuisine(c.Value()) == Some(c)
  {
  }

  lemma CuisineValuesDistinct(a: Cuisine, b: Cuisine)
    ensures a.Value() == b.Value() <==> a == b
  {
    CuisineRoundTrip(a);
    CuisineRoundTrip(b);
  }

  /** Position of a member in declaration order. */
  function CuisineOrdinal(x: Cuisine): nat {
    match x
    case Vietnamese => 0
    case Chinese => 1
    case Japanese => 2
    case Korean => 3
    case Thai => 4
    case American => 5
    case Italian => 6
    case French => 7
    case Mexican => 8
    case Pizza => 9
    case Burger => 10
    case Seafood => 11
    case BBQ => 12
    case International => 13
    case Fusion => 14
    case StreetFood => 15
    case CafeCuisine => 16
    case BakeryCuisine => 17
    case DessertCuisine => 18
  }

  /** Nineteen members, listed once each. */
  lemma CuisineFacts()
    ensures |AllCuisines()| == 19
    ensures forall c: Cuisine :: c in AllCuisines()
    ensures forall i, j :: 0 <= i < j < 19 ==> AllCuisines()[i] != AllCuisines()[j]
  {
    var r := AllCuisines();
    forall x: Cuisine ensures x in r {
      match x
      case Vietnamese => assert r[0] == x;
      case Chinese => assert r[1] == x;
      case Japanese => assert r[2] == x;
      case Korean => assert r[3] == x;
      case Thai => assert r[4] == x;
      case American => assert r[5] == x;
      case Italian => assert r[6] == x;
      case French => assert r[7] == x;
      case Mexican => assert r[8] == x;
      case Pizza => assert r[9] == x;
      case Burger => assert r[10] == x;
      case Seafood => assert r[11] == x;
      case BBQ => assert r[12] == x;
      case International => assert r[13] == x;
      case Fusion => assert r[14] == x;
      case StreetFood => assert r[15] == x;
      case CafeCuisine => assert r[16] == x;
      case BakeryCuisine => assert r[17] == x;
      case DessertCuisine => assert r[18] == x;
    }
    forall i | 0 <= i < 19 ensures CuisineOrdinal(r[i]) == i {
      if i == 0 {
        assert r[i] == Vietnamese;
      } else if i == 1 {
        assert r[i] == Chinese;
      } else if i == 2 {
        assert r[i] == Japanese;
      } else if i == 3 {
        assert r[i] == Korean;
      } else if i == 4 {
        assert r[i] == Thai;
      } else if i == 5 {
        assert r[i] == American;
      } else if i == 6 {
        assert r[i] == Italian;
      } else if i == 7 {
        assert r[i] == French;
      } else if i == 8 {
        assert r[i] == Mexican;
      } else if i == 9 {
        assert r[i] == Pizza;
      } else if i == 10 {
        assert r[i] == Burger;
      } else if i == 11 {
        assert r[i] == Seafood;
      } else if i == 12 {
        assert r[i] == BBQ;
      } else if i == 13 {
        assert r[i] == International;
      } else if i == 14 {
        assert r[i] == Fusion;
      } else if i == 15 {
        assert r[i] == StreetFood;
      } else if i == 16 {
        assert r[i] == CafeCuisine;
      } else if i == 17 {
        assert r[i] == BakeryCuisine;
      }
    }
    forall i, j | 0 <= i < j < 19 ensures r[i] != r[j] {
      assert CuisineOrdinal(r[i]) == i && CuisineOrdinal(r[j]) == j;
    }
  }

  lemma CuisineValuesLowerCase(c: Cuisine)
    ensures IsLowerCase(c.Value())
  {
  }

  /** Every cuisine value starts with a lower-case letter. */
  lemma CuisineValueStartsLower(c: Cuisine)
    ensures |c.Value()| > 0 && IsLowerAscii(c.Value()[0])
  {
  }

  /** The values the two enumerations share are exactly 'cafe', 'bakery'
      and 'dessert'. */
  lemma SharedTypeAndCuisineValues(t: LocationType, c: Cuisine)
    ensures t.Value() == c.Value() <==>
      (t, c) == (Cafe, CafeCuisine) || (t, c) == (Bakery, BakeryCuisine) || (t, c) == (Dessert, DessertCuisine)
  {
    CuisineRoundTrip(c);
    if t.Value() == c.Value() {
      assert ParseCuisine(t.Value()) == Some(c);
    }
  }

  // ---------------------------------------------------------------------
  // District

  datatype District = D1 | D2 | D3 | D4 | D5 | D7 | D8 | BinhThanh | ThuDuc {
    /** The string the enum member stands for. */
    function Value(): string {
      match this
      case D1 => "District 1"
      case D2 => "District 2"
      case D3 => "District 3"
      case D4 => "District 4"
      case D5 => "District 5"
      case D7 => "District 7"
      case D8 => "District 8"
      case BinhThanh => "Binh Thanh"
      case ThuDuc => "Thu Duc"
    }
  }

  /** `Object.values(District)`, in declaration order. */
  function AllDistricts(): seq<District>
  {
    [D1, D2, D3, D4, D5, D7, D8, BinhThanh, ThuDuc]
  }

  /** The enum member whose value is `s`, if any. */
  function ParseDistrict(s: string): (r: Option<District>)
    ensures r.Some? ==> r.value.Value() == s
  {
    if s == "District 1" then Some(D1)
    else if s == "District 2" then Some(D2)
    else if s == "District 3" then Some(D3)
    else if s == "District 4" then Some(D4)
    else if s == "District 5" then Some(D5)
    else if s == "District 7" then Some(D7)
    else if s == "District 8" then Some(D8)
    else if s == "Binh Thanh" then Some(BinhThanh)
    else if s == "Thu Duc" then Some(ThuDuc)
    else None
  }

  lemma DistrictRoundTrip(d: District)
    ensures ParseDistrict(d.Value()) == Some(d)
  {
  }

  lemma DistrictValuesDistinct(a: District, b: District)
    ensures a.Value() == b.Value() <==> a == b
  {
    DistrictRoundTrip(a);
    DistrictRoundTrip(b);
  }

  /** No district name occurs inside another one, so the case-insensitive
      substring test of the district filter never confuses two districts
      by name alone. */
  lemma DistrictNotSubstring(a: District, b: District)
    requires a != b
    ensures !Contains(a.Value(), b.Value())
  {
    DistrictValuesDistinct(a, b);
    var s, t := a.Value(), b.Value();
    if |s| == |t| {
      ContainsSameLength(s, t);
    } else if |s| < |t| {
      if Contains(s, t) { ContainsLength(s, t); }
    } else {
      assert b == ThuDuc && t[2] == 'u';
      NotContainsByChar(s, t, 'u');
    }
  }

  /** Position of a member in declaration order. */
  function DistrictOrdinal(x: District): nat {
    match x
    case D1 => 0
    case D2 => 1
    case D3 => 2
    case D4 => 3
    case D5 => 4
    case D7 => 5
    case D8 => 6
    case BinhThanh => 7
    case ThuDuc => 8
  }

  lemma DistrictFacts()
    ensures |AllDistricts()| == 9
    ensures forall d: District :: d in AllDistricts()
    ensures forall i, j :: 0 <= i < j < 9 ==> AllDistricts()[i] != AllDistricts()[j]
    ensures forall a: District, b: District :: a != b ==> !Contains(a.Value(), b.Value())
  {
    var r := AllDistricts();
    forall x: District ensures x in r {
      match x
      case D1 => assert r[0] == x;
      case D2 => assert r[1] == x;
      case D3 => assert r[2] == x;
      case D4 => assert r[3] == x;
      case D5 => assert r[4] == x;
      case D7 => assert r[5] == x;
      case D8 => assert r[6] == x;
      case BinhThanh => assert r[7] == x;
      case ThuDuc => assert r[8] == x;
    }
    forall i | 0 <= i < 9 ensures DistrictOrdinal(r[i]) == i {
      if i == 0 {
        assert r[i] == D1;
      } else if i == 1 {
        assert r[i] == D2;
      } else if i == 2 {
        assert r[i] == D3;
      } else if i == 3 {
        assert r[i] == D4;
      } else if i == 4 {
        assert r[i] == D5;
      } else if i == 5 {
        assert r[i] == D7;
      } else if i == 6 {
        assert r[i] == D8;
      } else if i == 7 {
        assert r[i] == BinhThanh;
      }
    }
    forall i, j | 0 <= i < j < 9 ensures r[i] != r[j] {
      assert DistrictOrdinal(r[i]) == i && DistrictOrdinal(r[j]) == j;
    }
    forall a: District, b: District | a != b ensures !Contains(a.Value(), b.Value()) {
      DistrictNotSubstring(a, b);
    }
  }

  // ---------------------------------------------------------------------
  // Price band

  datatype PriceRange = Low | Medium | High {
    function Value(): string {
      match this
      case Low => "low"
      case Medium => "medium"
      case High => "high"
    }
  }

  /** The price band named `s`, if any. */
  function ParsePriceRange(s: string): (r: Option<PriceRange>)
    ensures r.Some? ==> r.value.Value() == s
  {
    if s == "low" then Some(Low)
    else if s == "medium" then Some(Medium)
    else if s == "high" then Some(High)
    else None
  }

  lemma PriceRangeRoundTrip(p: PriceRange)
    ensures ParsePriceRange(p.Value()) == Some(p)
  {
  }

  // ---------------------------------------------------------------------
  // Address and Location

  /** A UTF-16 code unit: JavaScript strings are sequences of these, and
      may hold unpaired surrogates. */
  type CodeUnit = x: int | 0 <= x < 0x1_0000

  /** An ASCII string as a JavaScript string. */
  function AsciiUnits(s: string): (r: seq<CodeUnit>)
    requires forall i :: 0 <= i < |s| ==> s[i] as int < 0x80
    ensures |r| == |s|
    ensures forall i :: 0 <= i < |s| ==> r[i] == s[i] as int
  {
    seq(|s|, i requires 0 <= i < |s| => s[i] as int)
  }

  /** The structured postal address. Its free-text parts are kept as UTF-16
      code units because the map-link builder percent-encodes them, and
      that encoding is defined on code units. */
  datatype Address = Address(street: seq<CodeUnit>, district: District, city: seq<CodeUnit>,
                             postalCode: Option<seq<CodeUnit>>)

  /** `label` in the source, a reserved word here. */
  datatype Website = Website(url: string, caption: string)

  datatype Contact = Contact(phone: Option<string>, email: Option<string>, phoneClickable: Option<string>)

  /** A venue. `locType` is the source's `type` field. It and `cuisine` hold strings: curated records use enum
      values, converted submissions may hold anything. `submittedAt` is in
      milliseconds since the epoch; `votes`/`votedBy` are the voting fields
      the store and the vote button read. */
  datatype Location = Location(
    id: string,
    name: string,
    locType: string,
    cuisine: Option<string>,
    fullAddress: string,
    googleMapsUrl: string,
    features: seq<string>,
    priceRange: PriceRange,
    website: Option<Website>,
    contact: Option<Contact>,
    description: Option<string>,
    rating: Option<int>,
    submittedAt: Option<int>,
    suggestedBy: Option<string>,
    votes: Option<int>,
    votedBy: Option<seq<string>>)
}
