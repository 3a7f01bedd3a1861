/**
 The passport office locator: a fixed table of Nigerian immigration offices,
 the search box that narrows it, and the button that opens an office on the
 map page.

 Coordinates are kept as exact decimals; how JavaScript prints a number and
 `encodeURIComponent` are inputs to the URL builder.
 */
module PassportLocator {
  import opened Text
  import opened Seqs

  datatype Office = Office(state: string, address: string, kind: string, lat: Option<real>, lng: Option<real>)

  const ImmigrationOffices: seq<Office> := [
    Office("Abuja (FCT)", "NIS Headquarters, Airport Rd, Sauka, Abuja", "Passport Office", Some(8.9911), Some(7.3609)),
    Office("Abia", "NIS Command, Umuahia, Abia State", "Passport Office", Some(5.532), Some(7.486)),
    Office("Adamawa", "NIS Command, Jimeta-Yola, Adamawa State", "Passport Office", Some(9.3265), Some(12.3984)),
    Office("Akwa Ibom", "NIS Command, Uyo, Akwa Ibom State", "Passport Office", Some(5.0377), Some(7.9128)),
    Office("Anambra", "NIS Command, Awka, Anambra State", "Passport Office", Some(6.2107), Some(7.0741)),
    Office("Bauchi", "NIS Command, Bauchi, Bauchi State", "Passport Office", Some(10.3103), Some(9.8439)),
    Office("Bayelsa", "NIS Command, Yenagoa, Bayelsa State", "Passport Office", Some(4.9247), Some(6.2642)),
    Office("Benue", "NIS Command, Makurdi, Benue State", "Passport Office", Some(7.7336), Some(8.5214)),
    Office("Borno", "NIS Command, Maiduguri, Borno State", "Passport Office", Some(11.8333), Some(13.1500)),
    Office("Cross River", "NIS Command, Calabar, Cross River State", "Passport Office", Some(4.9589), Some(8.3269)),
    Office("Delta", "NIS Command, Asaba, Delta State", "Passport Office", Some(6.2016), Some(6.7319)),
    Office("Ebonyi", "NIS Command, Abakaliki, Ebonyi State", "Passport Office", Some(6.3249), Some(8.1137)),
    Office("Edo", "NIS Command, Benin City, Edo State", "Passport Office", Some(6.3392), Some(5.6174)),
    Office("Ekiti", "NIS Command, Ado-Ekiti, Ekiti State", "Passport Office", Some(7.6233), Some(5.2214)),
    Office("Enugu", "Independence Layout, Enugu", "Passport Office", Some(6.4527), Some(7.5103)),
    Office("Gombe", "NIS Command, Gombe, Gombe State", "Passport Office", Some(10.2897), Some(11.1673)),
    Office("Imo", "NIS Command, Owerri, Imo State", "Passport Office", Some(5.4836), Some(7.0333)),
    Office("Jigawa", "NIS Command, Dutse, Jigawa State", "Passport Office", Some(11.7004), Some(9.3503)),
    Office("Kaduna", "Independence Way, Kaduna", "Passport Office", Some(10.5105), Some(7.4165)),
    Office("Kano", "No. 1 Miller Road, Bompai, Kano", "Passport Office", Some(12.0022), Some(8.5919)),
    Office("Katsina", "NIS Command, Katsina, Katsina State", "Passport Office", Some(12.9855), Some(7.6170)),
    Office("Kebbi", "NIS Command, Birnin Kebbi, Kebbi State", "Passport Office", Some(12.4539), Some(4.1970)),
    Office("Kogi", "NIS Command, Lokoja, Kogi State", "Passport Office", Some(7.8023), Some(6.7333)),
    Office("Kwara", "NIS Command, Ilorin, Kwara State", "Passport Office", Some(8.4799), Some(4.5418)),
    Office("Lagos", "Alagbon Close, Ikoyi, Lagos", "Passport Office", Some(6.4541), Some(3.3947)),
    Office("Nasarawa", "NIS Command, Lafia, Nasarawa State", "Passport Office", Some(8.4939), Some(8.5150)),
    Office("Niger", "NIS Command, Minna, Niger State", "Passport Office", Some(9.6139), Some(6.5569)),
    Office("Ogun", "NIS Command, Abeokuta, Ogun State", "Passport Office", Some(7.1500), Some(3.3500)),
    Office("Ondo", "NIS Command, Akure, Ondo State", "Passport Office", Some(7.2526), Some(5.1931)),
    Office("Osun", "NIS Command, Osogbo, Osun State", "Passport Office", Some(7.7825), Some(4.5418)),
    Office("Oyo", "NIS Command, Ibadan, Oyo State", "Passport Office", Some(7.3775), Some(3.9470)),
    Office("Plateau", "NIS Command, Jos, Plateau State", "Passport Office", Some(9.8965), Some(8.8583)),
    Office("Rivers", "Amadi-Ama, Port Harcourt, Rivers State", "Passport Office", Some(4.8156), Some(7.0498)),
    Office("Sokoto", "NIS Command, Sokoto, Sokoto State", "Passport Office", Some(13.0667), Some(5.2333)),
    Office("Taraba", "NIS Command, Jalingo, Taraba State", "Passport Office", Some(8.8833), Some(11.3667)),
    Office("Yobe", "NIS Command, Damaturu, Yobe State", "Passport Office", Some(11.7460), Some(11.9608)),
    Office("Zamfara", "NIS Command, Gusau, Zamfara State", "Passport Office", Some(12.1628), Some(6.6646))
  ]

  /** The lower-cased query occurs in the lower-cased state name or address. */
  predicate OfficeMatches(query: string, office: Office) {
    Contains(Lower(office.state), Lower(query)) || Contains(Lower(office.address), Lower(query))
  }

  /** `filteredOffices`: the offices the query matches, in table order. */
  function FilterOffices(offices: seq<Office>, query: string): (r: seq<Office>)
    ensures |r| <= |offices|
    ensures forall o :: o in r <==> o in offices && OfficeMatches(query, o)
  {
    Filter(offices, (o: Office) => OfficeMatches(query, o))
  }

  /** The matching offices are a subsequence of the table: nothing is reordered. */
  lemma FilterKeepsOrder(offices: seq<Office>, query: string)
    ensures SubsequenceOf(FilterOffices(offices, query), offices)
  {
    FilterSubsequence(offices, (o: Office) => OfficeMatches(query, o));
  }

  /** The empty query lists every office, in table order. */
  lemma EmptyQueryListsAll(offices: seq<Office>)
    ensures FilterOffices(offices, "") == offices
  {
    forall o | o in offices
      ensures OfficeMatches("", o)
    {
      ContainsEmpty(Lower(o.state));
    }
    FilterAll(offices, (o: Office) => OfficeMatches("", o));
  }

  /** The query ignores letter case. */
  lemma QueryIgnoresCase(offices: seq<Office>, query: string)
    ensures FilterOffices(offices, Upper(query)) == FilterOffices(offices, query)
  {
    LowerOfUpper(query);
    FilterExt(offices, (o: Office) => OfficeMatches(Upper(query), o), (o: Office) => OfficeMatches(query, o));
  }

  /** A coordinate is truthy when present and not zero. */
  predicate CoordinateTruthy(c: Option<real>) {
    c.Some? && c.value != 0.0
  }

  /** Where the map button leads: nowhere, or a path inside the app. */
  datatype Navigation = StayHere | NavigateTo(path: string)

  const MapsPathHead: string := "/maps?lat="

  /**
   `handleViewMap`: with both coordinates truthy, the map page with the
   coordinates and the encoded state name as parameters.
   */
  function HandleViewMap(office: Office, formatNumber: real -> string, encode: string -> string): (r: Navigation)
    ensures r.NavigateTo? <==> CoordinateTruthy(office.lat) && CoordinateTruthy(office.lng)
    ensures r.NavigateTo? ==>
              r.path == MapsPathHead + formatNumber(office.lat.value) + "&lng=" + formatNumber(office.lng.value)
                        + "&state=" + encode(office.state)
    ensures r.NavigateTo? ==> StartsWith(r.path, MapsPathHead)
  {
    if CoordinateTruthy(office.lat) && CoordinateTruthy(office.lng) then
      var path := MapsPathHead + formatNumber(office.lat.value) + "&lng=" + formatNumber(office.lng.value)
                  + "&state=" + encode(office.state);
      assert path[..|MapsPathHead|] == MapsPathHead;
      NavigateTo(path)
    else StayHere
  }

  /** Every listed office is a passport office with both coordinates truthy. */
  predicate Listed(o: Office) {
    o.kind == "Passport Office" && CoordinateTruthy(o.lat) && CoordinateTruthy(o.lng)
  }

  /** The table holds 37 passport offices, each with both coordinates, so each has a map button. */
  lemma TableFacts()
    ensures |ImmigrationOffices| == 37
    ensures forall o :: o in ImmigrationOffices ==> o.kind == "Passport Office"
    ensures forall o, f, e :: o in ImmigrationOffices ==> HandleViewMap(o, f, e).NavigateTo?
  {
    forall i | 0 <= i < |ImmigrationOffices|
      ensures Listed(ImmigrationOffices[i])
    {
    }
  }
}
