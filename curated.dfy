/** The curated venue table the directory ships with: fifty records in
    the source's order, one function per record. Each record function
    proves in its own contract what that record satisfies; the facts about
    a table are stated by `WellFormedTableFacts` for any table whose
    records are all well formed, and are not instantiated on this one. */
module Curated {
  import opened Wrappers
  import opened Text
  import opened Locations

  /** The curated `locations` table, in the source's order. */
  function CuratedLocations(): seq<Location> {
    [
      Pizza4psVivo(), Pizza4psThuKhoaHuan(), PhoHoa(), ElGaucho(), PaperPlatePizza(),
      ArchiesPizza(), HungryBunny(), MadRoosta(), RedBison(), EddiesDiner(),
      QuanUtUt(), BunThitNuong(), DenLong(), PhoHung(), BanhMiBaHuynh(),
      TippysMexican(), RicoTaco(), KowloonBingsu(), HoHoMei(), DulceDeSaigon(),
      DoshDoughnuts(), MaisonMarou(), LittleHanoi(), BlankLounge(), ShadowLounge(),
      TheWorkshop(), TheCafeApartment(), SaigonCasaCafe(), CongCaphe(), LusineDongKhoi(),
      MisterWaffle(), FortyThreeFactory(), SpaNhanTam(), FaroCafe(), RunningBeanHtm(),
      RunningBeanMtb(), MojoNguyenHue(), TonkinGarden(), SignatureCoffeeHouse(), FigCafe(),
      AgaveSaigon(), ChidoMexican(), ElCamino(), SulBingsu(), CrispyDonuts(),
      ThreeFiftyF(), MankiArtisan(), BalconyCoffee(), BanhMiBtx(), BenNgheStreetFood()
    ]
  }

  /** Position of a curated id in the table, -1 for any other string: a
      lookup by first character, then by the whole id. */
  ghost function IdIndex(s: string): int {
    if |s| == 0 then -1
    else if s[0] == 'p' then (if s == "pizza-4ps-vivo" then 0 else if s == "pizza-4ps-thu-khoa-huan" then 1 else if s == "pho-hoa" then 2 else if s == "paper-plate-pizza" then 4 else if s == "pho-hung" then 13 else -1)
    else if s[0] == 'e' then (if s == "el-gaucho" then 3 else if s == "eddies-diner" then 9 else if s == "el-camino" then 42 else -1)
    else if s[0] == 'a' then (if s == "archies-pizza" then 5 else if s == "agave-saigon" then 40 else -1)
    else if s[0] == 'h' then (if s == "hungry-bunny" then 6 else if s == "ho-ho-mei" then 18 else -1)
    else if s[0] == 'm' then (if s == "mad-roosta" then 7 else if s == "maison-marou" then 21 else if s == "mister-waffle" then 30 else if s == "mojo-nguyen-hue" then 36 else if s == "manki-artisan" then 46 else -1)
    else if s[0] == 'r' then (if s == "red-bison" then 8 else if s == "rico-taco" then 16 else if s == "running-bean-htm" then 34 else if s == "running-bean-mtb" then 35 else -1)
    else if s[0] == 'q' then (if s == "quan-ut-ut" then 10 else -1)
    else if s[0] == 'b' then (if s == "bun-thit-nuong" then 11 else if s == "banh-mi-ba-huynh" then 14 else if s == "blank-lounge" then 23 else if s == "balcony-coffee" then 47 else if s == "banh-mi-btx" then 48 else if s == "ben-nghe-street-food" then 49 else -1)
    else if s[0] == 'd' then (if s == "den-long" then 12 else if s == "dulce-de-saigon" then 19 else if s == "dosh-doughnuts" then 20 else -1)
    else if s[0] == 't' then (if s == "tippys-mexican" then 15 else if s == "the-workshop" then 25 else if s == "the-cafe-apartment" then 26 else if s == "tonkin-garden" then 37 else -1)
    else if s[0] == 'k' then (if s == "kowloon-bingsu" then 17 else -1)
    else if s[0] == 'l' then (if s == "little-hanoi" then 22 else if s == "lusine-dong-khoi" then 29 else -1)
    else if s[0] == 's' then (if s == "shadow-lounge" then 24 else if s == "saigon-casa-cafe" then 27 else if s == "spa-nhan-tam" then 32 else if s == "signature-coffee-house" then 38 else if s == "sul-bingsu" then 43 else -1)
    else if s[0] == 'c' then (if s == "cong-caphe" then 28 else if s == "chido-mexican" then 41 else if s == "crispy-donuts" then 44 else -1)
    else if s[0] == '4' then (if s == "43-factory" then 31 else -1)
    else if s[0] == 'f' then (if s == "faro-cafe" then 33 else if s == "fig-cafe" then 39 else -1)
    else if s[0] == '3' then (if s == "350f" then 45 else -1)
    else -1
  }

  /** The ids of the records without a cuisine. */
  const NoCuisine: set<string> := {"blank-lounge", "shadow-lounge", "spa-nhan-tam"}

  /** Some district name occurs in `address`. */
  ghost predicate NamesDistrict(address: string) {
    exists d: District :: Contains(address, d.Value())
  }

  /** What the curated record at position `k` satisfies: its id is the
      one listed at `k`, it has at least one feature, its address names a
      district, and it lacks a cuisine exactly when its id is one of the
      three in `NoCuisine`. */
  ghost predicate WellFormedAt(l: Location, k: int) {
    && IdIndex(l.id) == k
    && |l.features| > 0
    && NamesDistrict(l.fullAddress)
    && (l.cuisine.None? <==> l.id in NoCuisine)
  }

  /** What a table well formed at every position satisfies: pairwise
      distinct ids, non-empty feature lists, an address naming a district
      everywhere, and a missing cuisine exactly for the ids in `NoCuisine`. */
  lemma {:induction false} WellFormedTableFacts(r: seq<Location>)
    requires forall i :: 0 <= i < |r| ==> WellFormedAt(r[i], i)
    ensures forall i, j :: 0 <= i < j < |r| ==> r[i].id != r[j].id
    ensures forall i :: 0 <= i < |r| ==> |r[i].features| > 0
    ensures forall i :: 0 <= i < |r| ==> NamesDistrict(r[i].fullAddress)
    ensures forall i :: 0 <= i < |r| ==> (r[i].cuisine.None? <==> r[i].id in NoCuisine)
  {
    forall i, j | 0 <= i < j < |r| ensures r[i].id != r[j].id {
      assert IdIndex(r[i].id) == i && IdIndex(r[j].id) == j;
    }
  }

  /** pizza-4ps-vivo */
  function Pizza4psVivo(): (r: Location)
    ensures WellFormedAt(r, 0)
  {
    ContainsMiddle("SC Vivo City, 1058 \U{0110}. Nguy\U{1EC5}n V\U{0103}n Linh, ", D7.Value(), ", Ho Chi Minh City, 700000");
    Location(
      id := "pizza-4ps-vivo",
      name := "Pizza 4P's - Vivo City",
      locType := LocationType.Restaurant.Value(),
      cuisine := Some(Cuisine.Pizza.Value()),
      fullAddress := "SC Vivo City, 1058 \U{0110}. Nguy\U{1EC5}n V\U{0103}n Linh, " + District.D7.Value() + ", Ho Chi Minh City, 700000",
      googleMapsUrl := "https://maps.google.com/?q=Pizza+4Ps+Vivo+City",
      features := ["Dine-in", "Takeaway", "Delivery"],
      priceRange := High,
      website := Some(Website("https://pizza4ps.com", "Visit Website")),
      contact := Some(Contact(Some("1900 6043"), None, Some("+1900604343"))),
      description := Some("Famous for their unique Japanese-Italian fusion pizzas"),
      rating := None,
      submittedAt := None,
      suggestedBy := Some("Moi"),
      votes := None,
      votedBy := None)
  }

  /** pizza-4ps-thu-khoa-huan */
  function Pizza4psThuKhoaHuan(): (r: Location)
    ensures WellFormedAt(r, 1)
  {
    ContainsMiddle("8 Thu Khoa Huan Street, ", D1.Value(), ", Ho Chi Minh City, 700000");
    Location(
      id := "pizza-4ps-thu-khoa-huan",
      name := "Pizza 4P's - Thu Khoa Huan",
      locType := LocationType.Restaurant.Value(),
      cuisine := Some(Cuisine.Pizza.Value()),
      fullAddress := "8 Thu Khoa Huan Street, " + District.D1.Value() + ", Ho Chi Minh City, 700000",
      googleMapsUrl := "https://maps.google.com/?q=Pizza+4Ps+Thu+Khoa+Huan",
      features := ["Dine-in", "Takeaway", "Delivery"],
      priceRange := High,
      website := None,
      contact := Some(Contact(Some("1900 6043"), None, Some("+1900604343"))),
      description := Some("Famous for their unique Japanese-Italian fusion pizzas - District 1 branch"),
      rating := None,
      submittedAt := None,
      suggestedBy := Some("Moi"),
      votes := None,
      votedBy := None)
  }

  /** pho-hoa */
  function PhoHoa(): (r: Location)
    ensures WellFormedAt(r, 2)
  {
    ContainsMiddle("260C Pasteur Street, ", D3.Value(), ", Ho Chi Minh City, 700000");
    Location(
      id := "pho-hoa",
      name := "Pho Hoa",
      locType := LocationType.Restaurant.Value(),
      cuisine := Some(Cuisine.Vietnamese.Value()),
      fullAddress := "260C Pasteur Street, " + District.D3.Value() + ", Ho Chi Minh City, 700000",
      googleMapsUrl := "https://maps.google.com/?q=Pho+Hoa+Pasteur+Ho+Chi+Minh+City",
      features := ["Pho", "Vietnamese", "Breakfast", "Dine-in", "Takeaway"],
      priceRange := Low,
      website := None,
      contact := Some(Contact(Some("+84 28 3829 7943"), None, None)),
      description := Some("Traditional Vietnamese pho restaurant"),
      rating := None,
      submittedAt := None,
      suggestedBy := Some("Moi"),
      votes := None,
      votedBy := None)
  }

  /** el-gaucho */
  function ElGaucho(): (r: Location)
    ensures WellFormedAt(r, 3)
  {
    ContainsMiddle("74/1 Hai Ba Trung, ", D1.Value(), ", Ho Chi Minh City, 700000");
    Location(
      id := "el-gaucho",
      name := "El Gaucho",
      locType := LocationType.Restaurant.Value(),
      cuisine := Some(Cuisine.American.Value()),
      fullAddress := "74/1 Hai Ba Trung, " + District.D1.Value() + ", Ho Chi Minh City, 700000",
      googleMapsUrl := "https://maps.google.com/?q=El+Gaucho+Hai+Ba+Trung+Ho+Chi+Minh+City",
      features := ["Steakhouse", "Fine Dining", "Wine", "Dine-in", "Reservation"],
      priceRange := High,
      website := Some(Website("https://elgaucho.asia", "Visit Website")),
      contact := Some(Contact(Some("+84 28 3823 2227"), None, None)),
      description := Some("Premium steakhouse offering high-quality cuts and fine dining experience"),
      rating := None,
      submittedAt := None,
      suggestedBy := Some("Moi"),
      votes := None,
      votedBy := None)
  }

  /** paper-plate-pizza */
  function PaperPlatePizza(): (r: Location)
    ensures WellFormedAt(r, 4)
  {
    ContainsMiddle("25/26B \U{0110}. T\U{00F4}n Th\U{1EA5}t T\U{00F9}ng, ", D1.Value(), ", Ho Chi Minh City");
    Location(
      id := "paper-plate-pizza",
      name := "Paper Plate Pizza",
      locType := LocationType.Restaurant.Value(),
      cuisine := Some(Cuisine.Pizza.Value()),
      fullAddress := "25/26B \U{0110}. T\U{00F4}n Th\U{1EA5}t T\U{00F9}ng, " + District.D1.Value() + ", Ho Chi Minh City",
      googleMapsUrl := "https://maps.google.com/?q=Paper+Plate+Pizza+Ho+Chi+Minh+City",
      features := ["NY Style Pizza", "Dine-in", "Takeaway"],
      priceRange := Medium,
      website := None,
      contact := Some(Contact(Some("+84 90 909 3726"), None, Some("+84909093726"))),
      description := Some("Authentic New York style pizza in Saigon"),
      rating := None,
      submittedAt := None,
      suggestedBy := Some("Moi"),
      votes := None,
      votedBy := None)
  }

  /** archies-pizza */
  function ArchiesPizza(): (r: Location)
    ensures WellFormedAt(r, 5)
  {
    ContainsMiddle("624 V\U{00F5} V\U{0103}n Ki\U{1EC7}t, ", D5.Value(), ", Ho Chi Minh City, 70000");
    Location(
      id := "archies-pizza",
      name := "Archie's American Pizza & Wing",
      locType := LocationType.Restaurant.Value(),
      cuisine := Some(Cuisine.Pizza.Value()),
      fullAddress := "624 V\U{00F5} V\U{0103}n Ki\U{1EC7}t, " + District.D5.Value() + ", Ho Chi Minh City, 70000",
      googleMapsUrl := "https://maps.google.com/?q=Archies+American+Pizza+Wing+Ho+Chi+Minh+City",
      features := ["American Style", "Wings", "Dine-in"],
      priceRange := Medium,
      website := None,
      contact := Some(Contact(Some("+84 28 3838 6200"), None, Some("+842838386200"))),
      description := None,
      rating := None,
      submittedAt := None,
      suggestedBy := Some("Moi"),
      votes := None,
      votedBy := None)
  }

  /** hungry-bunny */
  function HungryBunny(): (r: Location)
    ensures WellFormedAt(r, 6)
  {
    ContainsMiddle("1 \U{0110}. Nguy\U{1EC5}n C\U{1EED}u V\U{00E2}n, ", D1.Value(), ", Ho Chi Minh City");
    Location(
      id := "hungry-bunny",
      name := "The HUNGRY BUNNY",
      locType := LocationType.Restaurant.Value(),
      cuisine := Some(Cuisine.Burger.Value()),
      fullAddress := "1 \U{0110}. Nguy\U{1EC5}n C\U{1EED}u V\U{00E2}n, " + District.D1.Value() + ", Ho Chi Minh City",
      googleMapsUrl := "https://maps.google.com/?q=The+Hungry+Bunny+Ho+Chi+Minh+City",
      features := ["American Bistro", "Burgers", "Dine-in"],
      priceRange := Medium,
      website := Some(Website("http://www.facebook.com/hungrybunnybistro", "Visit Facebook Page")),
      contact := Some(Contact(Some("+84 28 3823 1111"), None, Some("+842838231111"))),
      description := Some("American bistro specializing in gourmet burgers"),
      rating := None,
      submittedAt := None,
      suggestedBy := Some("Moi"),
      votes := None,
      votedBy := None)
  }

  /** mad-roosta */
  function MadRoosta(): (r: Location)
    ensures WellFormedAt(r, 7)
  {
    ContainsMiddle("Level 2, 95 Hai B\U{00E0} Tr\U{01B0}ng, ", D1.Value(), ", Ho Chi Minh City, 700000");
    Location(
      id := "mad-roosta",
      name := "MAD ROOSTA",
      locType := LocationType.Restaurant.Value(),
      cuisine := Some(Cuisine.Burger.Value()),
      fullAddress := "Level 2, 95 Hai B\U{00E0} Tr\U{01B0}ng, " + District.D1.Value() + ", Ho Chi Minh City, 700000",
      googleMapsUrl := "https://maps.google.com/?q=Mad+Roosta+Ho+Chi+Minh+City",
      features := ["Burgers", "Grill", "Dine-in"],
      priceRange := Medium,
      website := None,
      contact := Some(Contact(Some("+84 28 3821 0101"), None, Some("+842838210101"))),
      description := Some("Specialty burger and grill restaurant"),
      rating := None,
      submittedAt := None,
      suggestedBy := Some("Moi"),
      votes := None,
      votedBy := None)
  }

  /** red-bison */
  function RedBison(): (r: Location)
    ensures WellFormedAt(r, 8)
  {
    ContainsMiddle("56 P. \U{0110}\U{1EE9}c Ch\U{00ED}nh, ", D1.Value(), ", Ho Chi Minh City");
    Location(
      id := "red-bison",
      name := "Red Bison Grill",
      locType := LocationType.Restaurant.Value(),
      cuisine := Some(Cuisine.American.Value()),
      fullAddress := "56 P. \U{0110}\U{1EE9}c Ch\U{00ED}nh, " + District.D1.Value() + ", Ho Chi Minh City",
      googleMapsUrl := "https://maps.google.com/?q=Red+Bison+Grill+Ho+Chi+Minh+City",
      features := ["Steakhouse", "American Grill", "Dine-in"],
      priceRange := High,
      website := None,
      contact := Some(Contact(Some("+84 28 3823 8000"), None, Some("+842838238000"))),
      description := None,
      rating := None,
      submittedAt := None,
      suggestedBy := Some("Moi"),
      votes := None,
      votedBy := None)
  }

  /** eddies-diner */
  function EddiesDiner(): (r: Location)
    ensures WellFormedAt(r, 9)
  {
    ContainsMiddle("73 Pasteur, ", D1.Value(), ", Ho Chi Minh City");
    Location(
      id := "eddies-diner",
      name := "Eddie's New York Deli & Diner",
      locType := LocationType.Restaurant.Value(),
      cuisine := Some(Cuisine.American.Value()),
      fullAddress := "73 Pasteur, " + District.D1.Value() + ", Ho Chi Minh City",
      googleMapsUrl := "https://maps.google.com/?q=Eddies+New+York+Deli+Diner+Ho+Chi+Minh+City",
      features := ["Deli", "American Diner", "Breakfast"],
      priceRange := Medium,
      website := None,
      contact := Some(Contact(Some("+84 28 3822 7827"), None, Some("+842838227827"))),
      description := Some("Authentic New York style deli and diner"),
      rating := None,
      submittedAt := None,
      suggestedBy := Some("Moi"),
      votes := None,
      votedBy := None)
  }

  /** quan-ut-ut */
  function QuanUtUt(): (r: Location)
    ensures WellFormedAt(r, 10)
  {
    ContainsMiddle("168 V\U{00F5} V\U{0103}n Ki\U{1EC7}t, ", D1.Value(), ", Ho Chi Minh City, 70000");
    Location(
      id := "quan-ut-ut",
      name := "Qu\U{00E1}n \U{1EE4}t \U{1EE4}t",
      locType := LocationType.Restaurant.Value(),
      cuisine := Some(Cuisine.American.Value()),
      fullAddress := "168 V\U{00F5} V\U{0103}n Ki\U{1EC7}t, " + District.D1.Value() + ", Ho Chi Minh City, 70000",
      googleMapsUrl := "https://maps.google.com/?q=Quan+Ut+Ut+Ho+Chi+Minh+City",
      features := ["BBQ", "American", "Beer"],
      priceRange := Medium,
      website := Some(Website("https://quanutut.com", "Visit Website")),
      contact := Some(Contact(Some("+84 28 6259 2959"), None, Some("+842862592959"))),
      description := Some("American-style BBQ restaurant"),
      rating := None,
      submittedAt := None,
      suggestedBy := Some("Moi"),
      votes := None,
      votedBy := None)
  }

  /** bun-thit-nuong */
  function BunThitNuong(): (r: Location)
    ensures WellFormedAt(r, 11)
  {
    ContainsMiddle("1 \U{0110}. Nguy\U{1EC5}n Trung Tr\U{1EF1}c, ", D1.Value(), ", Ho Chi Minh City");
    Location(
      id := "bun-thit-nuong",
      name := "B\U{00FA}n Th\U{1ECB}t N\U{01B0}\U{1EDB}ng Ch\U{1EA3} Gi\U{00F2}",
      locType := LocationType.Restaurant.Value(),
      cuisine := Some(Cuisine.Vietnamese.Value()),
      fullAddress := "1 \U{0110}. Nguy\U{1EC5}n Trung Tr\U{1EF1}c, " + District.D1.Value() + ", Ho Chi Minh City",
      googleMapsUrl := "https://maps.google.com/?q=Bun+Thit+Nuong+Cha+Gio+Nguyen+Trung+Truc+Ho+Chi+Minh+City",
      features := ["Vietnamese", "Local Cuisine", "Street Food"],
      priceRange := Low,
      website := None,
      contact := Some(Contact(Some("+84 28 3823 1085"), None, Some("+842838231085"))),
      description := None,
      rating := None,
      submittedAt := None,
      suggestedBy := Some("Moi"),
      votes := None,
      votedBy := None)
  }

  /** den-long */
  function DenLong(): (r: Location)
    ensures WellFormedAt(r, 12)
  {
    ContainsMiddle("130 Nguy\U{1EC5}n Tr\U{00E3}i, ", D1.Value(), ", Ho Chi Minh City, 700000");
    Location(
      id := "den-long",
      name := "Den Long - Home Cooked Vietnamese Restaurant",
      locType := LocationType.Restaurant.Value(),
      cuisine := Some(Cuisine.Vietnamese.Value()),
      fullAddress := "130 Nguy\U{1EC5}n Tr\U{00E3}i, " + District.D1.Value() + ", Ho Chi Minh City, 700000",
      googleMapsUrl := "https://maps.google.com/?q=Den+Long+Restaurant+Ho+Chi+Minh+City",
      features := ["Vietnamese", "Home Style", "Dine-in"],
      priceRange := Medium,
      website := Some(Website("https://www.facebook.com/denlongrestaurant", "Visit Facebook Page")),
      contact := Some(Contact(Some("+84 28 3925 1248"), None, Some("+842839251248"))),
      description := None,
      rating := None,
      submittedAt := None,
      suggestedBy := Some("Moi"),
      votes := None,
      votedBy := None)
  }

  /** pho-hung */
  function PhoHung(): (r: Location)
    ensures WellFormedAt(r, 13)
  {
    ContainsMiddle("243 Nguy\U{1EC5}n Tr\U{00E3}i, ", D1.Value(), ", Ho Chi Minh City, 700000");
    Location(
      id := "pho-hung",
      name := "Pho Hung",
      locType := LocationType.Restaurant.Value(),
      cuisine := Some(Cuisine.Vietnamese.Value()),
      fullAddress := "243 Nguy\U{1EC5}n Tr\U{00E3}i, " + District.D1.Value() + ", Ho Chi Minh City, 700000",
      googleMapsUrl := "https://maps.google.com/?q=Pho+Hung+Nguyen+Trai+Ho+Chi+Minh+City",
      features := ["Pho", "Vietnamese", "Breakfast"],
      priceRange := Low,
      website := None,
      contact := Some(Contact(Some("+84 28 3836 3595"), None, Some("+842838363595"))),
      description := None,
      rating := None,
      submittedAt := None,
      suggestedBy := Some("Moi"),
      votes := None,
      votedBy := None)
  }

  /** banh-mi-ba-huynh */
  function BanhMiBaHuynh(): (r: Location)
    ensures WellFormedAt(r, 14)
  {
    ContainsMiddle("197A Nguy\U{1EC5}n Tr\U{00E3}i, ", D1.Value(), ", Ho Chi Minh City, 700000");
    Location(
      id := "banh-mi-ba-huynh",
      name := "B\U{00E1}nh M\U{00EC} B\U{00E0} Huynh",
      locType := LocationType.Restaurant.Value(),
      cuisine := Some(Cuisine.Vietnamese.Value()),
      fullAddress := "197A Nguy\U{1EC5}n Tr\U{00E3}i, " + District.D1.Value() + ", Ho Chi Minh City, 700000",
      googleMapsUrl := "https://maps.google.com/?q=Banh+Mi+Ba+Huynh+Ho+Chi+Minh+City",
      features := ["Banh Mi", "Street Food", "Takeaway"],
      priceRange := Low,
      website := None,
      contact := Some(Contact(Some("+84 28 3925 0505"), None, Some("+842839250505"))),
      description := None,
      rating := None,
      submittedAt := None,
      suggestedBy := Some("Moi"),
      votes := None,
      votedBy := None)
  }

  /** tippys-mexican */
  function TippysMexican(): (r: Location)
    ensures WellFormedAt(r, 15)
  {
    ContainsMiddle("99 S\U{1ED1} 45, ", D4.Value(), ", Ho Chi Minh City, 72800");
    Location(
      id := "tippys-mexican",
      name := "Tippy's Mexican Food",
      locType := LocationType.Restaurant.Value(),
      cuisine := Some(Cuisine.Mexican.Value()),
      fullAddress := "99 S\U{1ED1} 45, " + District.D4.Value() + ", Ho Chi Minh City, 72800",
      googleMapsUrl := "https://maps.google.com/?q=Tippys+Mexican+Food+Ho+Chi+Minh+City",
      features := ["Mexican", "Casual Dining", "Dine-in"],
      priceRange := Medium,
      website := Some(Website("https://www.facebook.com/tippysmexicanfood", "Visit Facebook Page")),
      contact := Some(Contact(Some("+84 28 3825 7789"), None, Some("+842838257789"))),
      description := None,
      rating := None,
      submittedAt := None,
      suggestedBy := Some("Moi"),
      votes := None,
      votedBy := None)
  }

  /** rico-taco */
  function RicoTaco(): (r: Location)
    ensures WellFormedAt(r, 16)
  {
    ContainsMiddle("74/7 Hai B\U{00E0} Tr\U{01B0}ng, ", D1.Value(), ", Ho Chi Minh City");
    Location(
      id := "rico-taco",
      name := "Rico Taco",
      locType := LocationType.Restaurant.Value(),
      cuisine := Some(Cuisine.Mexican.Value()),
      fullAddress := "74/7 Hai B\U{00E0} Tr\U{01B0}ng, " + District.D1.Value() + ", Ho Chi Minh City",
      googleMapsUrl := "https://maps.google.com/?q=Rico+Taco+Ho+Chi+Minh+City",
      features := ["Mexican", "Tacos", "Casual"],
      priceRange := Medium,
      website := Some(Website("https://www.facebook.com/ricotacovn", "Visit Facebook Page")),
      contact := Some(Contact(Some("+84 28 3823 4173"), None, Some("+842838234173"))),
      description := None,
      rating := None,
      submittedAt := None,
      suggestedBy := Some("Moi"),
      votes := None,
      votedBy := None)
  }

  /** kowloon-bingsu */
  function KowloonBingsu(): (r: Location)
    ensures WellFormedAt(r, 17)
  {
    ContainsMiddle("74 B\U{00F9}i H\U{1EEF}u Ngh\U{0129}a, ", D5.Value(), ", Ho Chi Minh City");
    Location(
      id := "kowloon-bingsu",
      name := "Kowloon Bingsu",
      locType := LocationType.Restaurant.Value(),
      cuisine := Some(Cuisine.Chinese.Value()),
      fullAddress := "74 B\U{00F9}i H\U{1EEF}u Ngh\U{0129}a, " + District.D5.Value() + ", Ho Chi Minh City",
      googleMapsUrl := "https://maps.google.com/?q=Kowloon+Bingsutt+Ho+Chi+Minh+City",
      features := ["Chinese", "Dim Sum", "Dessert"],
      priceRange := Medium,
      website := Some(Website("https://www.facebook.com/profile.php?id=100064631624687", "Visit Facebook Page")),
      contact := Some(Contact(Some("+84 28 3838 6868"), None, Some("+842838386868"))),
      description := None,
      rating := None,
      submittedAt := None,
      suggestedBy := Some("Moi"),
      votes := None,
      votedBy := None)
  }

  /** ho-ho-mei */
  function HoHoMei(): (r: Location)
    ensures WellFormedAt(r, 18)
  {
    ContainsMiddle("906 \U{0110}. T\U{1EA1} Quang B\U{1EED}u, ", D8.Value(), ", Ho Chi Minh City, 70000");
    Location(
      id := "ho-ho-mei",
      name := "HO HO MEI",
      locType := LocationType.Restaurant.Value(),
      cuisine := Some(Cuisine.Chinese.Value()),
      fullAddress := "906 \U{0110}. T\U{1EA1} Quang B\U{1EED}u, " + District.D8.Value() + ", Ho Chi Minh City, 70000",
      googleMapsUrl := "https://maps.google.com/?q=Ho+Ho+Mei+Ho+Chi+Minh+City",
      features := ["Chinese", "Noodles", "Dim Sum"],
      priceRange := Medium,
      website := Some(Website("https://www.facebook.com/HoHoMei.DiemTam.MiGia", "Visit Facebook Page")),
      contact := Some(Contact(Some("+84 28 3981 8181"), None, Some("+842839818181"))),
      description := None,
      rating := None,
      submittedAt := None,
      suggestedBy := Some("Moi"),
      votes := None,
      votedBy := None)
  }

  /** dulce-de-saigon */
  function DulceDeSaigon(): (r: Location)
    ensures WellFormedAt(r, 19)
  {
    ContainsMiddle("382/15 Nguy\U{1EC5}n Th\U{1ECB} Minh Khai, ", D3.Value(), ", Ho Chi Minh City");
    Location(
      id := "dulce-de-saigon",
      name := "Dulce de Saigon",
      locType := LocationType.Dessert.Value(),
      cuisine := Some(Cuisine.DessertCuisine.Value()),
      fullAddress := "382/15 Nguy\U{1EC5}n Th\U{1ECB} Minh Khai, " + District.D3.Value() + ", Ho Chi Minh City",
      googleMapsUrl := "https://maps.google.com/?q=Dulce+de+Saigon+Ho+Chi+Minh+City",
      features := ["Cakes", "Pies", "Cafe"],
      priceRange := Medium,
      website := Some(Website("https://www.facebook.com/profile.php?id=100063623841689", "Visit Facebook Page")),
      contact := Some(Contact(Some("+84 28 3930 2626"), None, Some("+842839302626"))),
      description := Some("Specialty cakes and pies"),
      rating := None,
      submittedAt := None,
      suggestedBy := Some("Moi"),
      votes := None,
      votedBy := None)
  }

  /** dosh-doughnuts */
  function DoshDoughnuts(): (r: Location)
    ensures WellFormedAt(r, 20)
  {
    ContainsMiddle("42 Nguy\U{1EC5}n Hu\U{1EC7}, ", D1.Value(), ", Ho Chi Minh City, 70000");
    Location(
      id := "dosh-doughnuts",
      name := "Dosh Doughnuts",
      locType := LocationType.Dessert.Value(),
      cuisine := Some(Cuisine.DessertCuisine.Value()),
      fullAddress := "42 Nguy\U{1EC5}n Hu\U{1EC7}, " + District.D1.Value() + ", Ho Chi Minh City, 70000",
      googleMapsUrl := "https://maps.google.com/?q=Dosh+Doughnuts+Ho+Chi+Minh+City",
      features := ["Donuts", "Coffee", "Takeaway"],
      priceRange := Medium,
      website := Some(Website("https://www.facebook.com/profile.php?id=100090423393402", "Visit Facebook Page")),
      contact := Some(Contact(Some("+84 90 909 0042"), None, Some("+84909090042"))),
      description := None,
      rating := None,
      submittedAt := None,
      suggestedBy := Some("Moi"),
      votes := None,
      votedBy := None)
  }

  /** maison-marou */
  function MaisonMarou(): (r: Location)
    ensures WellFormedAt(r, 21)
  {
    ContainsMiddle("90 Xu\U{00E2}n Th\U{1EE7}y, ", D2.Value(), ", Ho Chi Minh City, 700000");
    Location(
      id := "maison-marou",
      name := "Maison Marou Flagship",
      locType := LocationType.Cafe.Value(),
      cuisine := Some(Cuisine.DessertCuisine.Value()),
      fullAddress := "90 Xu\U{00E2}n Th\U{1EE7}y, " + District.D2.Value() + ", Ho Chi Minh City, 700000",
      googleMapsUrl := "https://maps.google.com/?q=Maison+Marou+Flagship+Ho+Chi+Minh+City",
      features := ["Chocolate", "Cafe", "Desserts"],
      priceRange := High,
      website := Some(Website("https://maisonmarou.com", "Visit Website")),
      contact := Some(Contact(Some("+84 28 3929 2753"), None, Some("+842839292753"))),
      description := Some("Premium chocolate cafe and manufacturer"),
      rating := None,
      submittedAt := None,
      suggestedBy := Some("Moi"),
      votes := None,
      votedBy := None)
  }

  /** little-hanoi */
  function LittleHanoi(): (r: Location)
    ensures WellFormedAt(r, 22)
  {
    ContainsMiddle("119/5 \U{0110}. Yersin, ", D1.Value(), ", Ho Chi Minh City");
    Location(
      id := "little-hanoi",
      name := "Little HaNoi Egg Coffee",
      locType := LocationType.Cafe.Value(),
      cuisine := Some(Cuisine.Vietnamese.Value()),
      fullAddress := "119/5 \U{0110}. Yersin, " + District.D1.Value() + ", Ho Chi Minh City",
      googleMapsUrl := "https://maps.google.com/?q=Little+Hanoi+Egg+Coffee+Ho+Chi+Minh+City",
      features := ["Egg Coffee", "Vietnamese Coffee", "Cafe"],
      priceRange := Medium,
      website := None,
      contact := Some(Contact(Some("+84 90 167 8868"), None, Some("+84901678868"))),
      description := None,
      rating := None,
      submittedAt := None,
      suggestedBy := Some("Moi"),
      votes := None,
      votedBy := None)
  }

  /** blank-lounge */
  function BlankLounge(): (r: Location)
    ensures WellFormedAt(r, 23)
  {
    ContainsMiddle("208 Nguyen Huu Canh, Floor 75th - 76th, Landmark 81, ", BinhThanh.Value(), ", Ho Chi Minh City, 70000");
    Location(
      id := "blank-lounge",
      name := "Blank Lounge Landmark",
      locType := LocationType.Bar.Value(),
      cuisine := None,
      fullAddress := "208 Nguyen Huu Canh, Floor 75th - 76th, Landmark 81, " + District.BinhThanh.Value() + ", Ho Chi Minh City, 70000",
      googleMapsUrl := "https://maps.google.com/?q=Blank+Lounge+Landmark+81+Ho+Chi+Minh+City",
      features := ["Rooftop", "Cocktails", "View"],
      priceRange := High,
      website := Some(Website("https://www.facebook.com/blankloungelandmark81", "Visit Facebook Page")),
      contact := Some(Contact(Some("+84 28 3827 2727"), None, Some("+842838272727"))),
      description := None,
      rating := None,
      submittedAt := None,
      suggestedBy := Some("Moi"),
      votes := None,
      votedBy := None)
  }

  /** shadow-lounge */
  function ShadowLounge(): (r: Location)
    ensures WellFormedAt(r, 24)
  {
    ContainsMiddle("244 Pasteur, ", D3.Value(), ", Ho Chi Minh City, 700000");
    Location(
      id := "shadow-lounge",
      name := "Shadow Lounge",
      locType := LocationType.Bar.Value(),
      cuisine := None,
      fullAddress := "244 Pasteur, " + District.D3.Value() + ", Ho Chi Minh City, 700000",
      googleMapsUrl := "https://maps.google.com/?q=Shadow+Lounge+Pasteur+Ho+Chi+Minh+City",
      features := ["Cocktails", "Nightlife", "Music"],
      priceRange := High,
      website := None,
      contact := Some(Contact(Some("+84 90 998 8889"), None, Some("+84909988889"))),
      description := None,
      rating := None,
      submittedAt := None,
      suggestedBy := Some("Moi"),
      votes := None,
      votedBy := None)
  }

  /** the-workshop */
  function TheWorkshop(): (r: Location)
    ensures WellFormedAt(r, 25)
  {
    ContainsMiddle("27 Ng\U{00F4} \U{0110}\U{1EE9}c K\U{1EBF}, ", D1.Value(), ", Ho Chi Minh City, 700000");
    Location(
      id := "the-workshop",
      name := "The Workshop Coffee",
      locType := LocationType.Cafe.Value(),
      cuisine := Some(Cuisine.CafeCuisine.Value()),
      fullAddress := "27 Ng\U{00F4} \U{0110}\U{1EE9}c K\U{1EBF}, " + District.D1.Value() + ", Ho Chi Minh City, 700000",
      googleMapsUrl := "https://maps.google.com/?q=The+Workshop+Coffee+Ho+Chi+Minh+City",
      features := ["Specialty Coffee", "Workspace", "Industrial Design"],
      priceRange := Medium,
      website := Some(Website("https://facebook.com/theworkshopsaigon", "Visit Facebook Page")),
      contact := Some(Contact(Some("+84 28 3824 6801"), None, Some("+842838246801"))),
      description := Some("Industrial-style specialty coffee roastery and cafe"),
      rating := None,
      submittedAt := None,
      suggestedBy := Some("Moi"),
      votes := None,
      votedBy := None)
  }

  /** the-cafe-apartment */
  function TheCafeApartment(): (r: Location)
    ensures WellFormedAt(r, 26)
  {
    ContainsMiddle("42 Nguy\U{1EC5}n Hu\U{1EC7}, ", D1.Value(), ", Ho Chi Minh City, 700000");
    Location(
      id := "the-cafe-apartment",
      name := "The Cafe Apartment",
      locType := LocationType.CoffeeShop.Value(),
      cuisine := Some(Cuisine.CafeCuisine.Value()),
      fullAddress := "42 Nguy\U{1EC5}n Hu\U{1EC7}, " + District.D1.Value() + ", Ho Chi Minh City, 700000",
      googleMapsUrl := "https://maps.google.com/?q=Cafe+Apartment+Nguyen+Hue+Ho+Chi+Minh+City",
      features := ["Historic Building", "Multiple Cafes", "View"],
      priceRange := Medium,
      website := Some(Website("https://www.facebook.com/cafeapartment42nguyenhue", "Visit Facebook Page")),
      contact := Some(Contact(Some("+84 28 3824 1534"), None, Some("+842838241534"))),
      description := Some("Historic apartment building converted into multiple unique cafes"),
      rating := None,
      submittedAt := None,
      suggestedBy := Some("Moi"),
      votes := None,
      votedBy := None)
  }

  /** saigon-casa-cafe */
  function SaigonCasaCafe(): (r: Location)
    ensures WellFormedAt(r, 27)
  {
    ContainsMiddle("07 Ph\U{1EA1}m Ng\U{1ECD}c Th\U{1EA1}ch, ", D3.Value(), ", Ho Chi Minh City");
    Location(
      id := "saigon-casa-cafe",
      name := "Saigon Casa Caf\U{00E9}",
      locType := LocationType.Cafe.Value(),
      cuisine := Some(Cuisine.CafeCuisine.Value()),
      fullAddress := "07 Ph\U{1EA1}m Ng\U{1ECD}c Th\U{1EA1}ch, " + District.D3.Value() + ", Ho Chi Minh City",
      googleMapsUrl := "https://maps.google.com/?q=Saigon+Casa+Cafe+Ho+Chi+Minh+City",
      features := ["Coffee", "Workspace", "Modern"],
      priceRange := Medium,
      website := Some(Website("https://saigoncasacafe.com.vn/", "Visit Website")),
      contact := Some(Contact(Some("+84 28 3933 3933"), None, Some("+842839333933"))),
      description := None,
      rating := None,
      submittedAt := None,
      suggestedBy := Some("Moi"),
      votes := None,
      votedBy := None)
  }

  /** cong-caphe */
  function CongCaphe(): (r: Location)
    ensures WellFormedAt(r, 28)
  {
    ContainsMiddle("26 Ly Tu Trong Level 1, ", D1.Value(), ", Ho Chi Minh City, 700000");
    Location(
      id := "cong-caphe",
      name := "Cong Caphe",
      locType := LocationType.Cafe.Value(),
      cuisine := Some(Cuisine.Vietnamese.Value()),
      fullAddress := "26 Ly Tu Trong Level 1, " + District.D1.Value() + ", Ho Chi Minh City, 700000",
      googleMapsUrl := "https://maps.google.com/?q=Cong+Caphe+Ly+Tu+Trong+Ho+Chi+Minh+City",
      features := ["Vietnamese Coffee", "Retro Style", "Chain"],
      priceRange := Medium,
      website := Some(Website("https://congcaphe.com", "Visit Website")),
      contact := Some(Contact(Some("+84 28 3821 0023"), None, Some("+842838210023"))),
      description := None,
      rating := None,
      submittedAt := None,
      suggestedBy := Some("Moi"),
      votes := None,
      votedBy := None)
  }

  /** lusine-dong-khoi */
  function LusineDongKhoi(): (r: Location)
    ensures WellFormedAt(r, 29)
  {
    ContainsMiddle("151 \U{0110}. \U{0110}\U{1ED3}ng Kh\U{1EDF}i, ", D1.Value(), ", Ho Chi Minh City, 70000");
    Location(
      id := "lusine-dong-khoi",
      name := "L'Usine Dong Khoi",
      locType := LocationType.Cafe.Value(),
      cuisine := Some(Cuisine.French.Value()),
      fullAddress := "151 \U{0110}. \U{0110}\U{1ED3}ng Kh\U{1EDF}i, " + District.D1.Value() + ", Ho Chi Minh City, 70000",
      googleMapsUrl := "https://maps.google.com/?q=LUsine+Dong+Khoi+Ho+Chi+Minh+City",
      features := ["French Cafe", "Art Shop", "Brunch"],
      priceRange := High,
      website := Some(Website("https://www.facebook.com/lusinespace", "Visit Facebook Page")),
      contact := Some(Contact(Some("+84 28 6674 3565"), None, Some("+842866743565"))),
      description := None,
      rating := None,
      submittedAt := None,
      suggestedBy := Some("Moi"),
      votes := None,
      votedBy := None)
  }

  /** mister-waffle */
  function MisterWaffle(): (r: Location)
    ensures WellFormedAt(r, 30)
  {
    ContainsMiddle("72 H\U{00E0}m Nghi, ", D1.Value(), ", Ho Chi Minh City, 710000");
    Location(
      id := "mister-waffle",
      name := "Mister Waffle",
      locType := LocationType.Cafe.Value(),
      cuisine := Some(Cuisine.DessertCuisine.Value()),
      fullAddress := "72 H\U{00E0}m Nghi, " + District.D1.Value() + ", Ho Chi Minh City, 710000",
      googleMapsUrl := "https://maps.google.com/?q=Mister+Waffle+Ham+Nghi+Ho+Chi+Minh+City",
      features := ["Waffles", "Desserts", "Coffee"],
      priceRange := Medium,
      website := Some(Website("https://www.facebook.com/misterwaffle.vn", "Visit Facebook Page")),
      contact := Some(Contact(Some("+84 28 3821 0068"), None, Some("+842838210068"))),
      description := None,
      rating := None,
      submittedAt := None,
      suggestedBy := Some("Moi"),
      votes := None,
      votedBy := None)
  }

  /** 43-factory */
  function FortyThreeFactory(): (r: Location)
    ensures WellFormedAt(r, 31)
  {
    ContainsMiddle("178a Pasteur, ", D1.Value(), ", Ho Chi Minh City");
    Location(
      id := "43-factory",
      name := "43 Factory Coffee Roaster",
      locType := LocationType.CoffeeShop.Value(),
      cuisine := Some(Cuisine.CafeCuisine.Value()),
      fullAddress := "178a Pasteur, " + District.D1.Value() + ", Ho Chi Minh City",
      googleMapsUrl := "https://maps.google.com/?q=43+Factory+Coffee+Roaster+Ho+Chi+Minh+City",
      features := ["Specialty Coffee", "Coffee Roastery", "Modern"],
      priceRange := High,
      website := Some(Website("https://www.facebook.com/43factory", "Visit Facebook Page")),
      contact := Some(Contact(Some("+84 90 671 4343"), None, Some("+84906714343"))),
      description := None,
      rating := None,
      submittedAt := None,
      suggestedBy := Some("Moi"),
      votes := None,
      votedBy := None)
  }

  /** spa-nhan-tam */
  function SpaNhanTam(): (r: Location)
    ensures WellFormedAt(r, 32)
  {
    ContainsMiddle("113 \U{0110}. B\U{00F9}i Th\U{1ECB} Xu\U{00E2}n, ", D1.Value(), ", Ho Chi Minh City, 758000");
    Location(
      id := "spa-nhan-tam",
      name := "Spa Nh\U{00E2}n T\U{00E2}m",
      locType := LocationType.Spa.Value(),
      cuisine := None,
      fullAddress := "113 \U{0110}. B\U{00F9}i Th\U{1ECB} Xu\U{00E2}n, " + District.D1.Value() + ", Ho Chi Minh City, 758000",
      googleMapsUrl := "https://maps.google.com/?q=Spa+Nhan+Tam+Ho+Chi+Minh+City",
      features := ["Massage", "Spa Services", "Relaxation"],
      priceRange := Medium,
      website := None,
      contact := Some(Contact(Some("+84 28 3925 1724"), None, Some("+842839251724"))),
      description := None,
      rating := None,
      submittedAt := None,
      suggestedBy := Some("Moi"),
      votes := None,
      votedBy := None)
  }

  /** faro-cafe */
  function FaroCafe(): (r: Location)
    ensures WellFormedAt(r, 33)
  {
    ContainsMiddle("81 Xu\U{00E2}n Th\U{1EE7}y, ", D1.Value(), ", Ho Chi Minh City, 700000");
    Location(
      id := "faro-cafe",
      name := "Faro Cafe Th\U{1EA3}o \U{0110}i\U{1EC1}n",
      locType := LocationType.Cafe.Value(),
      cuisine := Some(Cuisine.CafeCuisine.Value()),
      fullAddress := "81 Xu\U{00E2}n Th\U{1EE7}y, " + District.D1.Value() + ", Ho Chi Minh City, 700000",
      googleMapsUrl := "https://maps.google.com/?q=Faro+Cafe+Thao+Dien+Ho+Chi+Minh+City",
      features := ["Coffee", "Modern Design", "Workspace"],
      priceRange := Medium,
      website := Some(Website("https://www.facebook.com/farocafe.thaodien", "Visit Facebook Page")),
      contact := Some(Contact(Some("+84 28 3519 4532"), None, Some("+842835194532"))),
      description := None,
      rating := None,
      submittedAt := None,
      suggestedBy := Some("Moi"),
      votes := None,
      votedBy := None)
  }

  /** running-bean-htm */
  function RunningBeanHtm(): (r: Location)
    ensures WellFormedAt(r, 34)
  {
    ContainsMiddle("115 \U{0110}. H\U{1ED3} T\U{00F9}ng M\U{1EAD}u, ", D1.Value(), ", Ho Chi Minh City");
    Location(
      id := "running-bean-htm",
      name := "The Running Bean H\U{1ED3} T\U{00F9}ng M\U{1EAD}u",
      locType := LocationType.CoffeeShop.Value(),
      cuisine := Some(Cuisine.CafeCuisine.Value()),
      fullAddress := "115 \U{0110}. H\U{1ED3} T\U{00F9}ng M\U{1EAD}u, " + District.D1.Value() + ", Ho Chi Minh City",
      googleMapsUrl := "https://maps.google.com/?q=The+Running+Bean+Ho+Tung+Mau+Ho+Chi+Minh+City",
      features := ["Coffee", "Breakfast", "Casual"],
      priceRange := Medium,
      website := None,
      contact := Some(Contact(Some("+84 28 3821 0101"), None, Some("+842838210101"))),
      description := None,
      rating := None,
      submittedAt := None,
      suggestedBy := Some("Moi"),
      votes := None,
      votedBy := None)
  }

  /** running-bean-mtb */
  function RunningBeanMtb(): (r: Location)
    ensures WellFormedAt(r, 35)
  {
    ContainsMiddle("33 M\U{1EA1}c Th\U{1ECB} B\U{01B0}\U{1EDF}i, ", D1.Value(), ", Ho Chi Minh City, 70000");
    Location(
      id := "running-bean-mtb",
      name := "The Running Bean M\U{1EA1}c Th\U{1ECB} B\U{01B0}\U{1EDF}i",
      locType := LocationType.CoffeeShop.Value(),
      cuisine := Some(Cuisine.CafeCuisine.Value()),
      fullAddress := "33 M\U{1EA1}c Th\U{1ECB} B\U{01B0}\U{1EDF}i, " + District.D1.Value() + ", Ho Chi Minh City, 70000",
      googleMapsUrl := "https://maps.google.com/?q=The+Running+Bean+Mac+Thi+Buoi+Ho+Chi+Minh+City",
      features := ["Coffee", "Breakfast", "Business District"],
      priceRange := Medium,
      website := Some(Website("https://www.facebook.com/therunningbean.vn", "Visit Facebook Page")),
      contact := Some(Contact(Some("+84 28 3521 0101"), None, Some("+842835210101"))),
      description := None,
      rating := None,
      submittedAt := None,
      suggestedBy := Some("Moi"),
      votes := None,
      votedBy := None)
  }

  /** mojo-nguyen-hue */
  function MojoNguyenHue(): (r: Location)
    ensures WellFormedAt(r, 36)
  {
    ContainsMiddle("129 \U{0110}. Nguy\U{1EC5}n Hu\U{1EC7}, ", D1.Value(), ", Ho Chi Minh City, 700000");
    Location(
      id := "mojo-nguyen-hue",
      name := "MOJO Boutique Coffee",
      locType := LocationType.CoffeeShop.Value(),
      cuisine := Some(Cuisine.CafeCuisine.Value()),
      fullAddress := "129 \U{0110}. Nguy\U{1EC5}n Hu\U{1EC7}, " + District.D1.Value() + ", Ho Chi Minh City, 700000",
      googleMapsUrl := "https://maps.google.com/?q=MOJO+Boutique+Coffee+Nguyen+Hue+Ho+Chi+Minh+City",
      features := ["Specialty Coffee", "Modern", "Central Location"],
      priceRange := Medium,
      website := None,
      contact := Some(Contact(Some("+84 28 3821 9766"), None, Some("+842838219766"))),
      description := None,
      rating := None,
      submittedAt := None,
      suggestedBy := Some("Moi"),
      votes := None,
      votedBy := None)
  }

  /** tonkin-garden */
  function TonkinGarden(): (r: Location)
    ensures WellFormedAt(r, 37)
  {
    ContainsMiddle("135/50 Tr\U{1EA7}n H\U{01B0}ng \U{0110}\U{1EA1}o, ", D1.Value(), ", Ho Chi Minh City, 71009");
    Location(
      id := "tonkin-garden",
      name := "Tonkin Garden Egg Coffee & Eatery",
      locType := LocationType.Cafe.Value(),
      cuisine := Some(Cuisine.Vietnamese.Value()),
      fullAddress := "135/50 Tr\U{1EA7}n H\U{01B0}ng \U{0110}\U{1EA1}o, " + District.D1.Value() + ", Ho Chi Minh City, 71009",
      googleMapsUrl := "https://maps.google.com/?q=Tonkin+Garden+Egg+Coffee+Ho+Chi+Minh+City",
      features := ["Egg Coffee", "Vietnamese Coffee", "Croissants"],
      priceRange := Medium,
      website := Some(Website("https://www.facebook.com/profile.php?id=100063674682435", "Visit Facebook Page")),
      contact := Some(Contact(Some("+84 90 909 1135"), None, Some("+84909091135"))),
      description := None,
      rating := None,
      submittedAt := None,
      suggestedBy := Some("Moi"),
      votes := None,
      votedBy := None)
  }

  /** signature-coffee-house */
  function SignatureCoffeeHouse(): (r: Location)
    ensures WellFormedAt(r, 38)
  {
    ContainsMiddle("Crescent Mall, 101 T\U{00F4}n D\U{1EAD}t Ti\U{00EA}n, ", D7.Value(), ", Ho Chi Minh City");
    Location(
      id := "signature-coffee-house",
      name := "SIGNATURE By The Coffee House",
      locType := LocationType.CoffeeShop.Value(),
      cuisine := Some(Cuisine.CafeCuisine.Value()),
      fullAddress := "Crescent Mall, 101 T\U{00F4}n D\U{1EAD}t Ti\U{00EA}n, " + District.D7.Value() + ", Ho Chi Minh City",
      googleMapsUrl := "https://maps.google.com/?q=SIGNATURE+By+The+Coffee+House+Crescent+Mall+Ho+Chi+Minh+City",
      features := ["Premium Coffee", "Mall Location", "Modern"],
      priceRange := Medium,
      website := Some(Website("https://thecoffeehouse.com", "Visit Website")),
      contact := Some(Contact(Some("+84 28 7109 9909"), None, Some("+842871099909"))),
      description := None,
      rating := None,
      submittedAt := None,
      suggestedBy := Some("Moi"),
      votes := None,
      votedBy := None)
  }

  /** fig-cafe */
  function FigCafe(): (r: Location)
    ensures WellFormedAt(r, 39)
  {
    ContainsMiddle("7a Nguy\U{1EC5}n B\U{00ED}nh, ", D7.Value(), ", Ho Chi Minh City");
    Location(
      id := "fig-cafe",
      name := "The Fig Caf\U{00E9}",
      locType := LocationType.Cafe.Value(),
      cuisine := Some(Cuisine.International.Value()),
      fullAddress := "7a Nguy\U{1EC5}n B\U{00ED}nh, " + District.D7.Value() + ", Ho Chi Minh City",
      googleMapsUrl := "https://maps.google.com/?q=The+Fig+Cafe+Ho+Chi+Minh+City",
      features := ["Cafe", "International Menu", "Cozy"],
      priceRange := Medium,
      website := Some(Website("https://www.facebook.com/thefigcafesaigon", "Visit Facebook Page")),
      contact := Some(Contact(Some("+84 28 5410 9956"), None, Some("+842854109956"))),
      description := None,
      rating := None,
      submittedAt := None,
      suggestedBy := Some("Moi"),
      votes := None,
      votedBy := None)
  }

  /** agave-saigon */
  function AgaveSaigon(): (r: Location)
    ensures WellFormedAt(r, 40)
  {
    ContainsMiddle("13 Pasteur, ", D1.Value(), ", Ho Chi Minh City, 70000");
    Location(
      id := "agave-saigon",
      name := "Agave Saigon Mexican Restaurant",
      locType := LocationType.Restaurant.Value(),
      cuisine := Some(Cuisine.Mexican.Value()),
      fullAddress := "13 Pasteur, " + District.D1.Value() + ", Ho Chi Minh City, 70000",
      googleMapsUrl := "https://maps.google.com/?q=Agave+Saigon+Mexican+Restaurant+Ho+Chi+Minh+City",
      features := ["Mexican", "Authentic", "Bar"],
      priceRange := High,
      website := None,
      contact := Some(Contact(Some("+84 28 3825 6373"), None, Some("+842838256373"))),
      description := None,
      rating := None,
      submittedAt := None,
      suggestedBy := Some("Moi"),
      votes := None,
      votedBy := None)
  }

  /** chido-mexican */
  function ChidoMexican(): (r: Location)
    ensures WellFormedAt(r, 41)
  {
    ContainsMiddle("32 Tr\U{1EA7}n Ng\U{1ECD}c Di\U{1EC7}n, ", D1.Value(), ", Ho Chi Minh City, 713384");
    Location(
      id := "chido-mexican",
      name := "Chido Mexican",
      locType := LocationType.Restaurant.Value(),
      cuisine := Some(Cuisine.Mexican.Value()),
      fullAddress := "32 Tr\U{1EA7}n Ng\U{1ECD}c Di\U{1EC7}n, " + District.D1.Value() + ", Ho Chi Minh City, 713384",
      googleMapsUrl := "https://maps.google.com/?q=Chido+Mexican+Ho+Chi+Minh+City",
      features := ["Mexican", "Casual Dining", "Tacos"],
      priceRange := Medium,
      website := None,
      contact := Some(Contact(Some("+84 28 6680 8895"), None, Some("+842866808895"))),
      description := None,
      rating := None,
      submittedAt := None,
      suggestedBy := Some("Moi"),
      votes := None,
      votedBy := None)
  }

  /** el-camino */
  function ElCamino(): (r: Location)
    ensures WellFormedAt(r, 42)
  {
    ContainsMiddle("32 Nguy\U{1EC5}n Duy Hi\U{1EC7}u, ", D1.Value(), ", Ho Chi Minh City, 70000");
    Location(
      id := "el-camino",
      name := "El Camino Taqueria",
      locType := LocationType.Restaurant.Value(),
      cuisine := Some(Cuisine.Mexican.Value()),
      fullAddress := "32 Nguy\U{1EC5}n Duy Hi\U{1EC7}u, " + District.D1.Value() + ", Ho Chi Minh City, 70000",
      googleMapsUrl := "https://maps.google.com/?q=El+Camino+Taqueria+Ho+Chi+Minh+City",
      features := ["Tacos", "Mexican", "Casual"],
      priceRange := Medium,
      website := None,
      contact := Some(Contact(Some("+84 90 838 1313"), None, Some("+84908381313"))),
      description := None,
      rating := None,
      submittedAt := None,
      suggestedBy := Some("Moi"),
      votes := None,
      votedBy := None)
  }

  /** sul-bingsu */
  function SulBingsu(): (r: Location)
    ensures WellFormedAt(r, 43)
  {
    ContainsMiddle("219 Nguy\U{1EC5}n Tr\U{00E3}i, ", D1.Value(), ", Ho Chi Minh City");
    Location(
      id := "sul-bingsu",
      name := "Sul Bingsu",
      locType := LocationType.Dessert.Value(),
      cuisine := Some(Cuisine.Korean.Value()),
      fullAddress := "219 Nguy\U{1EC5}n Tr\U{00E3}i, " + District.D1.Value() + ", Ho Chi Minh City",
      googleMapsUrl := "https://maps.google.com/?q=Sul+Bingsu+Ho+Chi+Minh+City",
      features := ["Korean Desserts", "Bingsu", "Ice Cream"],
      priceRange := Medium,
      website := Some(Website("https://www.facebook.com/sulbingsu.vn", "Visit Facebook Page")),
      contact := Some(Contact(Some("+84 28 3925 9562"), None, Some("+842839259562"))),
      description := None,
      rating := None,
      submittedAt := None,
      suggestedBy := Some("Moi"),
      votes := None,
      votedBy := None)
  }

  /** crispy-donuts */
  function CrispyDonuts(): (r: Location)
    ensures WellFormedAt(r, 44)
  {
    ContainsMiddle("97A Xu\U{00E2}n Th\U{1EE7}y, ", D1.Value(), ", Ho Chi Minh City, 700000");
    Location(
      id := "crispy-donuts",
      name := "Crispy Donuts Th\U{1EA3}o \U{0110}i\U{1EC1}n",
      locType := LocationType.Dessert.Value(),
      cuisine := Some(Cuisine.DessertCuisine.Value()),
      fullAddress := "97A Xu\U{00E2}n Th\U{1EE7}y, " + District.D1.Value() + ", Ho Chi Minh City, 700000",
      googleMapsUrl := "https://maps.google.com/?q=Crispy+Donuts+Thao+Dien+Ho+Chi+Minh+City",
      features := ["Donuts", "Coffee", "Takeaway"],
      priceRange := Medium,
      website := Some(Website("https://www.facebook.com/crispydonutsvn", "Visit Facebook Page")),
      contact := Some(Contact(Some("+84 28 3519 4023"), None, Some("+842835194023"))),
      description := None,
      rating := None,
      submittedAt := None,
      suggestedBy := Some("Moi"),
      votes := None,
      votedBy := None)
  }

  /** 350f */
  function ThreeFiftyF(): (r: Location)
    ensures WellFormedAt(r, 45)
  {
    ContainsMiddle("69A Xu\U{00E2}n Th\U{1EE7}y, ", D1.Value(), ", Ho Chi Minh City, 700000");
    Location(
      id := "350f",
      name := "The 350F",
      locType := LocationType.Bakery.Value(),
      cuisine := Some(Cuisine.BakeryCuisine.Value()),
      fullAddress := "69A Xu\U{00E2}n Th\U{1EE7}y, " + District.D1.Value() + ", Ho Chi Minh City, 700000",
      googleMapsUrl := "https://maps.google.com/?q=The+350F+Xuan+Thuy+Ho+Chi+Minh+City",
      features := ["Bakery", "Pastries", "Coffee"],
      priceRange := Medium,
      website := Some(Website("https://www.facebook.com/the350f", "Visit Facebook Page")),
      contact := Some(Contact(Some("+84 28 3519 0350"), None, Some("+842835190350"))),
      description := None,
      rating := None,
      submittedAt := None,
      suggestedBy := Some("Moi"),
      votes := None,
      votedBy := None)
  }

  /** manki-artisan */
  function MankiArtisan(): (r: Location)
    ensures WellFormedAt(r, 46)
  {
    ContainsMiddle("Flat No.4, 1st floor, 42bis L\U{00FD} T\U{1EF1} Tr\U{1ECD}ng, ", D1.Value(), ", Ho Chi Minh City, 760000");
    Location(
      id := "manki-artisan",
      name := "Manki True Artisan Caf\U{00E9}",
      locType := LocationType.CoffeeShop.Value(),
      cuisine := Some(Cuisine.CafeCuisine.Value()),
      fullAddress := "Flat No.4, 1st floor, 42bis L\U{00FD} T\U{1EF1} Tr\U{1ECD}ng, " + District.D1.Value() + ", Ho Chi Minh City, 760000",
      googleMapsUrl := "https://maps.google.com/?q=Manki+True+Artisan+Cafe+Ho+Chi+Minh+City",
      features := ["Specialty Coffee", "Artisan", "Cozy"],
      priceRange := Medium,
      website := None,
      contact := Some(Contact(Some("+84 90 944 5544"), None, Some("+84909445544"))),
      description := None,
      rating := None,
      submittedAt := None,
      suggestedBy := Some("Moi"),
      votes := None,
      votedBy := None)
  }

  /** balcony-coffee */
  function BalconyCoffee(): (r: Location)
    ensures WellFormedAt(r, 47)
  {
    ContainsMiddle("26 L\U{00FD} T\U{1EF1} Tr\U{1ECD}ng, ", D1.Value(), ", Ho Chi Minh City");
    Location(
      id := "balcony-coffee",
      name := "The Balcony Coffee",
      locType := LocationType.CoffeeShop.Value(),
      cuisine := Some(Cuisine.CafeCuisine.Value()),
      fullAddress := "26 L\U{00FD} T\U{1EF1} Tr\U{1ECD}ng, " + District.D1.Value() + ", Ho Chi Minh City",
      googleMapsUrl := "https://maps.google.com/?q=The+Balcony+Coffee+Ho+Chi+Minh+City",
      features := ["Coffee", "View", "Central Location"],
      priceRange := Medium,
      website := Some(Website("https://www.facebook.com/thebalconycoffee.vn", "Visit Facebook Page")),
      contact := Some(Contact(Some("+84 28 3824 1838"), None, Some("+842838241838"))),
      description := Some("Coffee shop with a view across from Vincom Center"),
      rating := None,
      submittedAt := None,
      suggestedBy := Some("Moi"),
      votes := None,
      votedBy := None)
  }

  /** banh-mi-btx */
  function BanhMiBtx(): (r: Location)
    ensures WellFormedAt(r, 48)
  {
    ContainsMiddle("122E \U{0110}. B\U{00F9}i Th\U{1ECB} Xu\U{00E2}n, ", D1.Value(), ", Ho Chi Minh City");
    Location(
      id := "banh-mi-btx",
      name := "B\U{00E1}nh m\U{00EC} B\U{00F9}i Th\U{1ECB} Xu\U{00E2}n",
      locType := LocationType.Restaurant.Value(),
      cuisine := Some(Cuisine.Vietnamese.Value()),
      fullAddress := "122E \U{0110}. B\U{00F9}i Th\U{1ECB} Xu\U{00E2}n, " + District.D1.Value() + ", Ho Chi Minh City",
      googleMapsUrl := "https://maps.google.com/?q=Banh+Mi+Bui+Thi+Xuan+Ho+Chi+Minh+City",
      features := ["Banh Mi", "Street Food", "Takeaway"],
      priceRange := Low,
      website := None,
      contact := Some(Contact(Some("+84 28 3925 0808"), None, Some("+842839250808"))),
      description := None,
      rating := None,
      submittedAt := None,
      suggestedBy := Some("Moi"),
      votes := None,
      votedBy := None)
  }

  /** ben-nghe-street-food */
  function BenNgheStreetFood(): (r: Location)
    ensures WellFormedAt(r, 49)
  {
    ContainsMiddle("134 Nam K\U{1EF3} Kh\U{1EDF}i Ngh\U{0129}a, ", D1.Value(), ", Ho Chi Minh City");
    Location(
      id := "ben-nghe-street-food",
      name := "Ben Nghe Street Food",
      locType := LocationType.Restaurant.Value(),
      cuisine := Some(Cuisine.Vietnamese.Value()),
      fullAddress := "134 Nam K\U{1EF3} Kh\U{1EDF}i Ngh\U{0129}a, " + District.D1.Value() + ", Ho Chi Minh City",
      googleMapsUrl := "https://maps.google.com/?q=Ben+Nghe+Street+Food+Ho+Chi+Minh+City",
      features := ["Street Food", "Local Cuisine", "Casual"],
      priceRange := Low,
      website := None,
      contact := Some(Contact(Some("+84 28 3823 9000"), None, Some("+842838239000"))),
      description := None,
      rating := None,
      submittedAt := None,
      suggestedBy := Some("Moi"),
      votes := None,
      votedBy := None)
  }
}
