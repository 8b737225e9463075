/** The detail panel for the selected dealer (src/dealer-details.js): the
    Google Maps directions link, the city/state line, the phone link and the
    website button, or an empty element when no dealer is selected. */
module DealerDetails {
  import opened JsValues
  import opened Dealers
  import opened UriEncoding

  /** The fixed front of every directions link. */
  const DirectionsPrefix: string := "https://www.google.com/maps/dir/?api=1&destination="

  /** The dealer properties the directions query reads, in order. The query
      reads `addr`, although the panel shows the street from `addr1`. */
  const QueryKeys: seq<string> := ["addr", "name", "city", "state", "country"]

  /** `Array.prototype.join(sep)` on strings. */
  function Join(parts: seq<string>, sep: string): (r: string)
    ensures |parts| == 0 ==> r == ""
    ensures |parts| > 0 ==> |r| >= |parts[0]| && r[..|parts[0]|] == parts[0]
    ensures |parts| > 0 ==> var last := parts[|parts| - 1];
              |r| >= |last| && r[|r| - |last|..] == last
  {
    if |parts| == 0 then ""
    else if |parts| == 1 then parts[0]
    else parts[0] + sep + Join(parts[1..], sep)
  }

  /** `dealer[param] || ""` for each query key. */
  function QueryPart(d: Dealer, i: nat): (r: string)
    requires i < |QueryKeys|
    ensures r == "" <==> !Truthy(Prop(d, QueryKeys[i]))
    ensures Truthy(Prop(d, QueryKeys[i])) ==> r == TemplateText(Prop(d, QueryKeys[i]))
  {
    OrEmptyText(Prop(d, QueryKeys[i]))
  }

  /** The query before encoding: the five parts joined by single spaces. */
  function DirectionsQuery(d: Dealer): (q: string)
    ensures q == QueryPart(d, 0) + " " + QueryPart(d, 1) + " " + QueryPart(d, 2)
                 + " " + QueryPart(d, 3) + " " + QueryPart(d, 4)
  {
    var parts := seq(|QueryKeys|, i requires 0 <= i < |QueryKeys| => QueryPart(d, i));
    JoinFive(parts, " ");
    Join(parts, " ")
  }

  lemma JoinFive(p: seq<string>, sep: string)
    requires |p| == 5
    ensures Join(p, sep) == p[0] + sep + p[1] + sep + p[2] + sep + p[3] + sep + p[4]
  {
    assert p[3..][1..] == p[4..] && p[2..][1..] == p[3..] && p[1..][1..] == p[2..];
    calc {
      Join(p, sep);
      p[0] + sep + Join(p[1..], sep);
      p[0] + sep + (p[1] + sep + Join(p[2..], sep));
      p[0] + sep + (p[1] + sep + (p[2] + sep + Join(p[3..], sep)));
      p[0] + sep + (p[1] + sep + (p[2] + sep + (p[3] + sep + Join(p[4..], sep))));
      p[0] + sep + (p[1] + sep + (p[2] + sep + (p[3] + sep + p[4])));
    }
  }

  /** `createDealerDirectionsURL(dealer)`: the prefix followed by the
      `encodeURI`-encoded query. Percent-decoding what follows the prefix
      gives the query back. */
  function CreateDealerDirectionsURL(d: Dealer): (url: string)
    ensures |url| >= |DirectionsPrefix| && url[..|DirectionsPrefix|] == DirectionsPrefix
    ensures PercentDecode(url[|DirectionsPrefix|..]) == Some(DirectionsQuery(d))
    ensures forall i :: |DirectionsPrefix| <= i < |url| ==> EncodedChar(url[i])
  {
    var url := DirectionsPrefix + EncodeURI(DirectionsQuery(d));
    DecodeEncodeURI(DirectionsQuery(d));
    assert url[|DirectionsPrefix|..] == EncodeURI(DirectionsQuery(d));
    url
  }

  /** The query has exactly four separator spaces on top of the spaces inside
      the field values. */
  lemma DirectionsQuerySpaces(d: Dealer)
    ensures Occurrences(DirectionsQuery(d), ' ')
            == 4 + Occurrences(QueryPart(d, 0), ' ') + Occurrences(QueryPart(d, 1), ' ')
                 + Occurrences(QueryPart(d, 2), ' ') + Occurrences(QueryPart(d, 3), ' ')
                 + Occurrences(QueryPart(d, 4), ' ')
  {
    var p0, p1, p2, p3, p4 := QueryPart(d, 0), QueryPart(d, 1), QueryPart(d, 2), QueryPart(d, 3), QueryPart(d, 4);
    assert Occurrences(" ", ' ') == 1;
    OccurrencesAppend(p0, " ", ' ');
    OccurrencesAppend(p0 + " ", p1, ' ');
    OccurrencesAppend(p0 + " " + p1, " ", ' ');
    OccurrencesAppend(p0 + " " + p1 + " ", p2, ' ');
    OccurrencesAppend(p0 + " " + p1 + " " + p2, " ", ' ');
    OccurrencesAppend(p0 + " " + p1 + " " + p2 + " ", p3, ' ');
    OccurrencesAppend(p0 + " " + p1 + " " + p2 + " " + p3, " ", ' ');
    OccurrencesAppend(p0 + " " + p1 + " " + p2 + " " + p3 + " ", p4, ' ');
  }

  /** A dealer with none of the five query fields truthy still gets a link:
      four encoded spaces after the prefix. */
  lemma EmptyDealerDirections(d: Dealer)
    requires forall k :: k in QueryKeys ==> !Truthy(Prop(d, k))
    ensures DirectionsQuery(d) == "    "
    ensures CreateDealerDirectionsURL(d) == DirectionsPrefix + "%20%20%20%20"
  {
    EmptyDealerQuery(d);
    FourSpacesEncoded();
  }

  lemma EmptyDealerQuery(d: Dealer)
    requires forall k :: k in QueryKeys ==> !Truthy(Prop(d, k))
    ensures DirectionsQuery(d) == "    "
  {
  }

  lemma FourSpacesEncoded()
    ensures EncodeURI("    ") == "%20%20%20%20"
  {
  }

  /** Two dealers get the same link exactly when their queries agree. */
  lemma DirectionsURLDeterminesQuery(d: Dealer, e: Dealer)
    ensures CreateDealerDirectionsURL(d) == CreateDealerDirectionsURL(e)
            <==> DirectionsQuery(d) == DirectionsQuery(e)
  {
  }

  /** The street shown in the panel (`addr1`) does not enter the query, which
      reads `addr`. */
  lemma DirectionsIgnoreAddr1(d: Dealer, street: JsValue)
    ensures CreateDealerDirectionsURL(Dealer(d.location, d.props["addr1" := street]))
            == CreateDealerDirectionsURL(d)
  {
  }

  /** The second address line: `${city} ${city ? "," : ""} ${state} ${zip} ${country}`. */
  function CityLine(d: Dealer): (line: string)
    ensures var city := TemplateText(Prop(d, "city"));
            |line| > |city| && line[..|city| + 1] == city + " "
    ensures var country := TemplateText(Prop(d, "country"));
            |line| > |country| && line[|line| - |country| - 1..] == " " + country
  {
    var city := Prop(d, "city");
    TemplateText(city) + " " + (if Truthy(city) then "," else "") + " "
    + TemplateText(Prop(d, "state")) + " " + TemplateText(Prop(d, "zip"))
    + " " + TemplateText(Prop(d, "country"))
  }

  /** When no field text itself holds a comma, the line holds one exactly when
      the city is truthy. */
  lemma CityLineComma(d: Dealer)
    requires ',' !in TemplateText(Prop(d, "city")) && ',' !in TemplateText(Prop(d, "state"))
    requires ',' !in TemplateText(Prop(d, "zip")) && ',' !in TemplateText(Prop(d, "country"))
    ensures ',' in CityLine(d) <==> Truthy(Prop(d, "city"))
  {
  }

  /** A record without a city shows the word "undefined" and no comma slot:
      the line starts with "undefined  " (two spaces). */
  lemma CityLineWithoutCity(d: Dealer)
    requires "city" !in d.props
    ensures |CityLine(d)| >= 11 && CityLine(d)[..11] == "undefined  "
  {
  }

  /** The `tel:` link: its target and the text it shows. */
  datatype PhoneLink = PhoneLink(href: string, text: string)

  /** `{dealer.phone && <a href={`tel:${dealer.phone}`}><Icon /> {dealer.phone}</a>}`:
      the text after the icon is a space followed by the phone. */
  function PhoneLinkOf(d: Dealer): (r: Option<PhoneLink>)
    ensures r.Some? <==> Truthy(Prop(d, "phone"))
    ensures r.Some? ==> |r.value.href| > 4 && r.value.href[..4] == "tel:"
    ensures r.Some? && Prop(d, "phone").Str? ==>
      r.value.href[4..] == Prop(d, "phone").s && r.value.text == " " + Prop(d, "phone").s
  {
    var phone := Prop(d, "phone");
    if Truthy(phone) then Some(PhoneLink("tel:" + TemplateText(phone), " " + JsxText(phone))) else None
  }

  /** What `DealerDetails` renders. The website entry is the value handed to
      the host's website button as `callToActionLink`. */
  datatype DetailsView =
    | EmptyDiv
    | Panel(name: string, street: string, cityLine: string,
            phone: Option<PhoneLink>, directions: string, website: Option<JsValue>)

  /** `DealerDetails({dealer, ...})`: an empty element without a dealer, the
      full panel otherwise. */
  function DealerDetailsView(dealer: Option<Dealer>): (v: DetailsView)
    ensures v.EmptyDiv? <==> dealer.None?
    ensures v.Panel? ==> (v.website.Some? <==> Truthy(Prop(dealer.value, "website")))
    ensures v.Panel? ==> (v.phone.Some? <==> Truthy(Prop(dealer.value, "phone")))
    ensures v.Panel? ==> v.directions == CreateDealerDirectionsURL(dealer.value)
  {
    match dealer
    case None => EmptyDiv
    case Some(d) =>
      var website := Prop(d, "website");
      Panel(JsxText(Prop(d, "name")), JsxText(Prop(d, "addr1")), CityLine(d),
            PhoneLinkOf(d), CreateDealerDirectionsURL(d),
            if Truthy(website) then Some(website) else None)
  }
}
