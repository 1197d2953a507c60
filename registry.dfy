/**
 * The closed registries of the Energy Charts client: the countries the API
 * serves, with their query codes, and the three endpoint paths. Also the
 * name lookup `GetCountry`.
 */
module Registry {
  import opened Wrappers
  import opened Errors

  /** The three resources of the API, each with a fixed path. */
  datatype APIEndPoint = Generation | TotalPower | InstalledPower {
    /** Every path is absolute: a `/` followed by the resource name. */
    function Path(): (r: string)
      ensures |r| > 1 && r[0] == '/'
    {
      match this
        case Generation => "/public_power"
        case TotalPower => "/total_power"
        case InstalledPower => "/installed_power"
    }
  }

  /** The `Country` enumeration, one constructor per member, in declaration order. */
  datatype Country =
    | Germany
    | Switzerland
    | EuropeanUnion
    | Europe
    | Albania
    | Armenia
    | Austria
    | Azerbaijan
    | BosniaHerzegoina
    | Belgium
    | Bulgaria
    | Belarus
    | Cyprus
    | CzechRepublic
    | Denmark
    | Spain
    | Estonia
    | Finland
    | France
    | Georgia
    | Croatia
    | Greece
    | Ireland
    | Hungary
    | Italy
    | Lithuania
    | Luxembourg
    | Latvia
    | Moldova
    | NorthMacedoni
    | Montenegro
    | Malta
    | NorthIreland
    | Netherlands
    | Norway
    | Poland
    | Portugal
    | Romania
    | Serbia
    | Russia
    | Sweden
    | Slovenia
    | SlovakRepublic
    | Turkey
    | Ukraine
    | UnitedKingdom
    | Kosovo
  {
    /** The member's Python name, spelled exactly as declared (including `France` and `LITHUANIa`). */
    function Name(): (r: string)
      ensures 5 <= |r| <= 17
    {
      match this
        case Germany => "GERMANY"
        case Switzerland => "SWITZERLAND"
        case EuropeanUnion => "EUROPEAN_UNION"
        case Europe => "EUROPE"
        case Albania => "ALBANIA"
        case Armenia => "ARMENIA"
        case Austria => "AUSTRIA"
        case Azerbaijan => "AZERBAIJAN"
        case BosniaHerzegoina => "BOSNIA_HERZEGOINA"
        case Belgium => "BELGIUM"
        case Bulgaria => "BULGARIA"
        case Belarus => "BELARUS"
        case Cyprus => "CYPRUS"
        case CzechRepublic => "CZECH_REPUBLIC"
        case Denmark => "DENMARK"
        case Spain => "SPAIN"
        case Estonia => "ESTONIA"
        case Finland => "FINLAND"
        case France => "France"
        case Georgia => "GEORGIA"
        case Croatia => "CROATIA"
        case Greece => "GREECE"
        case Ireland => "IRELAND"
        case Hungary => "HUNGARY"
        case Italy => "ITALY"
        case Lithuania => "LITHUANIa"
        case Luxembourg => "LUXEMBOURG"
        case Latvia => "LATVIA"
        case Moldova => "MOLDOVA"
        case NorthMacedoni => "NORTH_MACEDONI"
        case Montenegro => "MONTENEGRO"
        case Malta => "MALTA"
        case NorthIreland => "NORTH_IRELAND"
        case Netherlands => "NETHERLANDS"
        case Norway => "NORWAY"
        case Poland => "POLAND"
        case Portugal => "PORTUGAL"
        case Romania => "ROMANIA"
        case Serbia => "SERBIA"
        case Russia => "RUSSIA"
        case Sweden => "SWEDEN"
        case Slovenia => "SLOVENIA"
        case SlovakRepublic => "SLOVAK_REPUBLIC"
        case Turkey => "TURKEY"
        case Ukraine => "UKRAINE"
        case UnitedKingdom => "UNITED_KINGDOM"
        case Kosovo => "KOSOVO"
    }

    /** The member's value: the code sent as the `country` query parameter. */
    function Code(): (r: string)
      ensures 2 <= |r| <= 3
      ensures forall i :: 0 <= i < |r| ==> 'a' <= r[i] <= 'z'
    {
      match this
        case Germany => "de"
        case Switzerland => "ch"
        case EuropeanUnion => "eu"
        case Europe => "all"
        case Albania => "al"
        case Armenia => "am"
        case Austria => "at"
        case Azerbaijan => "az"
        case BosniaHerzegoina => "ba"
        case Belgium => "be"
        case Bulgaria => "bg"
        case Belarus => "by"
        case Cyprus => "cy"
        case CzechRepublic => "cz"
        case Denmark => "dk"
        case Spain => "es"
        case Estonia => "ee"
        case Finland => "fi"
        case France => "fr"
        case Georgia => "ge"
        case Croatia => "hr"
        case Greece => "gr"
        case Ireland => "ie"
        case Hungary => "hu"
        case Italy => "it"
        case Lithuania => "lt"
        case Luxembourg => "lu"
        case Latvia => "lv"
        case Moldova => "md"
        case NorthMacedoni => "mk"
        case Montenegro => "me"
        case Malta => "mt"
        case NorthIreland => "nie"
        case Netherlands => "nl"
        case Norway => "no"
        case Poland => "pl"
        case Portugal => "pt"
        case Romania => "ro"
        case Serbia => "rs"
        case Russia => "ru"
        case Sweden => "se"
        case Slovenia => "si"
        case SlovakRepublic => "sk"
        case Turkey => "tr"
        case Ukraine => "ua"
        case UnitedKingdom => "uk"
        case Kosovo => "xk"
    }

    /** The member's position in declaration order, the order in which iteration over the enumeration visits it. */
    function Ordinal(): (r: nat)
      ensures r < MemberCount
    {
      match this
        case Germany => 0
        case Switzerland => 1
        case EuropeanUnion => 2
        case Europe => 3
        case Albania => 4
        case Armenia => 5
        case Austria => 6
        case Azerbaijan => 7
        case BosniaHerzegoina => 8
        case Belgium => 9
        case Bulgaria => 10
        case Belarus => 11
        case Cyprus => 12
        case CzechRepublic => 13
        case Denmark => 14
        case Spain => 15
        case Estonia => 16
        case Finland => 17
        case France => 18
        case Georgia => 19
        case Croatia => 20
        case Greece => 21
        case Ireland => 22
        case Hungary => 23
        case Italy => 24
        case Lithuania => 25
        case Luxembourg => 26
        case Latvia => 27
        case Moldova => 28
        case NorthMacedoni => 29
        case Montenegro => 30
        case Malta => 31
        case NorthIreland => 32
        case Netherlands => 33
        case Norway => 34
        case Poland => 35
        case Portugal => 36
        case Romania => 37
        case Serbia => 38
        case Russia => 39
        case Sweden => 40
        case Slovenia => 41
        case SlovakRepublic => 42
        case Turkey => 43
        case Ukraine => 44
        case UnitedKingdom => 45
        case Kosovo => 46
    }
  }

  /** The number of members of `Country`. */
  const MemberCount: nat := 47

  /** The member at position `i` of the declaration order. */
  function MemberAt(i: nat): (r: Country)
    requires i < MemberCount
  {
    match i
      case 0 => Germany
      case 1 => Switzerland
      case 2 => EuropeanUnion
      case 3 => Europe
      case 4 => Albania
      case 5 => Armenia
      case 6 => Austria
      case 7 => Azerbaijan
      case 8 => BosniaHerzegoina
      case 9 => Belgium
      case 10 => Bulgaria
      case 11 => Belarus
      case 12 => Cyprus
      case 13 => CzechRepublic
      case 14 => Denmark
      case 15 => Spain
      case 16 => Estonia
      case 17 => Finland
      case 18 => France
      case 19 => Georgia
      case 20 => Croatia
      case 21 => Greece
      case 22 => Ireland
      case 23 => Hungary
      case 24 => Italy
      case 25 => Lithuania
      case 26 => Luxembourg
      case 27 => Latvia
      case 28 => Moldova
      case 29 => NorthMacedoni
      case 30 => Montenegro
      case 31 => Malta
      case 32 => NorthIreland
      case 33 => Netherlands
      case 34 => Norway
      case 35 => Poland
      case 36 => Portugal
      case 37 => Romania
      case 38 => Serbia
      case 39 => Russia
      case 40 => Sweden
      case 41 => Slovenia
      case 42 => SlovakRepublic
      case 43 => Turkey
      case 44 => Ukraine
      case 45 => UnitedKingdom
      case _ => Kosovo
  }

  /** The member at a position sits at that position: `MemberAt` inverts `Ordinal`. */
  lemma OrdinalOfMemberAt(i: nat)
    requires i < MemberCount
    ensures MemberAt(i).Ordinal() == i
  {
    if i < 12 { OrdinalsBelow(i, 0); }
    else if i < 24 { OrdinalsBelow(i, 12); }
    else if i < 36 { OrdinalsBelow(i, 24); }
    else { OrdinalsBelow(i, 36); }
  }

  lemma OrdinalsBelow(i: nat, lo: nat)
    requires lo <= i < lo + 12 && i < MemberCount
    ensures MemberAt(i).Ordinal() == i
  {
  }

  /** Position and member determine each other: every member is visited, once. */
  lemma MemberAtOrdinal(c: Country)
    ensures c.Ordinal() < MemberCount && MemberAt(c.Ordinal()) == c
  {
    match c
      case Germany =>
      case Switzerland =>
      case EuropeanUnion =>
      case Europe =>
      case Albania =>
      case Armenia =>
      case Austria =>
      case Azerbaijan =>
      case BosniaHerzegoina =>
      case Belgium =>
      case Bulgaria =>
      case Belarus =>
      case Cyprus =>
      case CzechRepublic =>
      case Denmark =>
      case Spain =>
      case Estonia =>
      case Finland =>
      case France =>
      case Georgia =>
      case Croatia =>
      case Greece =>
      case Ireland =>
      case Hungary =>
      case Italy =>
      case Lithuania =>
      case Luxembourg =>
      case Latvia =>
      case Moldova =>
      case NorthMacedoni =>
      case Montenegro =>
      case Malta =>
      case NorthIreland =>
      case Netherlands =>
      case Norway =>
      case Poland =>
      case Portugal =>
      case Romania =>
      case Serbia =>
      case Russia =>
      case Sweden =>
      case Slovenia =>
      case SlovakRepublic =>
      case Turkey =>
      case Ukraine =>
      case UnitedKingdom =>
      case Kosovo =>
  }

  /** ASCII lower-case letters, the only ones whose upper-case form this model knows. */
  predicate IsLower(ch: char) {
    'a' <= ch <= 'z'
  }

  /** Python's `str.upper` on one character, restricted to ASCII. */
  function UpperChar(ch: char): char {
    if IsLower(ch) then (ch as int - 'a' as int + 'A' as int) as char else ch
  }

  /** `s.upper()`: every lower-case letter replaced by its capital. */
  function Upper(s: string): (r: string)
    ensures |r| == |s|
    ensures forall i :: 0 <= i < |s| ==> r[i] == UpperChar(s[i])
  {
    if s == [] then [] else [UpperChar(s[0])] + Upper(s[1..])
  }

  /** A name without lower-case letters; only such names can equal an upper-cased string. */
  predicate AllUpper(s: string) {
    forall i :: 0 <= i < |s| ==> !IsLower(s[i])
  }

  /** Every member is visited by iterating over the positions `0 .. MemberCount - 1`. */
  lemma AllMembersAtOrdinals()
    ensures forall c: Country :: c.Ordinal() < MemberCount && MemberAt(c.Ordinal()) == c
  {
    forall c: Country ensures c.Ordinal() < MemberCount && MemberAt(c.Ordinal()) == c {
      MemberAtOrdinal(c);
    }
  }

  /**
   * The loop of `get_country`: visit the members from position `i` on, in
   * declaration order, and return the first whose name equals `name`.
   */
  function FindFrom(i: nat, name: string): (r: Option<Country>)
    requires i <= MemberCount
    ensures r.Some? ==> r.value.Name() == name
    ensures r.None? ==> forall c: Country :: i <= c.Ordinal() ==> c.Name() != name
    decreases MemberCount - i
  {
    AllMembersAtOrdinals();
    if i == MemberCount then
      None
    else if MemberAt(i).Name() == name then
      Some(MemberAt(i))
    else
      FindFrom(i + 1, name)
  }

  /**
   * `get_country`: the member whose name equals the upper-cased input, or
   * `CountryNotYetImplementedError` when there is none.
   */
  function GetCountry(country: string): (r: Result<Country, Error>)
    ensures r.Success? <==> exists c: Country :: c.Name() == Upper(country)
    ensures r.Success? ==> r.value.Name() == Upper(country)
    ensures r.Failure? ==> r.error == CountryNotYetImplemented(country)
  {
    match FindFrom(0, Upper(country))
      case Some(c) => Success(c)
      case None => Failure(CountryNotYetImplemented(country))
  }

  /** Upper-casing leaves no lower-case letter behind. */
  lemma UpperIsAllUpper(s: string)
    ensures AllUpper(Upper(s))
  {
  }

  /** A string without lower-case letters is its own upper-case form. */
  lemma {:induction false} UpperFixesAllUpper(s: string)
    requires AllUpper(s)
    ensures Upper(s) == s
  {
    if s != [] {
      UpperFixesAllUpper(s[1..]);
    }
  }

  /**
   * A lookup succeeds for exactly one member per upper-cased input, and a
   * member can be returned for some input exactly when its name has no
   * lower-case letter. So `France` and `LITHUANIa` are never returned.
   */
  lemma {:induction false} ReturnableIffAllUpper(c: Country)
    ensures (exists s :: GetCountry(s) == Success(c)) <==> AllUpper(c.Name())
  {
    if AllUpper(c.Name()) {
      FoundByOwnName(c);
    }
    forall s | GetCountry(s) == Success(c) ensures AllUpper(c.Name()) {
      ReturnedIsAllUpper(s);
    }
  }

  /** A member whose name has no lower-case letter is found by that very name. */
  lemma FoundByOwnName(c: Country)
    requires AllUpper(c.Name())
    ensures GetCountry(c.Name()) == Success(c)
  {
    var name := c.Name();
    UpperFixesAllUpper(name);
    var r := GetCountry(name);
    assert r.Success? by {
      assert c.Name() == Upper(name);
    }
    NameIdentifies(r.value, c);
  }

  /** Every member a lookup returns has a name without lower-case letters. */
  lemma ReturnedIsAllUpper(s: string)
    ensures GetCountry(s).Success? ==> AllUpper(GetCountry(s).value.Name())
  {
    UpperIsAllUpper(s);
  }

  /** A member whose name has a lower-case letter is never returned. */
  lemma LowerNameUnreachable(c: Country, i: nat, s: string)
    requires i < |c.Name()| && IsLower(c.Name()[i])
    ensures GetCountry(s) != Success(c)
  {
    ReturnedIsAllUpper(s);
  }

  /** Members whose declared name is not upper-case are never found. */
  lemma MixedCaseMembersUnreachable(c: Country, s: string)
    requires c == France || c == Lithuania
    ensures GetCountry(s) != Success(c)
  {
    if c == France {
      LowerNameUnreachable(c, 1, s);
    } else {
      LowerNameUnreachable(c, 8, s);
    }
  }

  /** So `"france"` is not found: no member is named `FRANCE`. */
  lemma GetCountryFrance(country: string)
    requires country == "france"
    ensures GetCountry(country) == Failure(CountryNotYetImplemented(country))
  {
    assert Upper(country) == "FRANCE";
    NoMemberNamedFrance(Upper(country));
  }

  lemma NoMemberNamedFrance(name: string)
    requires name == "FRANCE"
    ensures forall c: Country :: c.Name() != name
  {
  }

  /** The lookup the test suite checks: a lower-case name resolves to its member. */
  lemma GetCountryGermany(name: string)
    requires name == "germany"
    ensures GetCountry(name) == Success(Germany) && Germany.Code() == "de"
  {
    assert Upper(name) == Germany.Name();
    NameIdentifies(GetCountry(name).value, Germany);
  }

  /** An unknown name fails with `CountryNotYetImplementedError`. */
  lemma GetCountryUnknown(country: string)
    requires country == "invalid_country_code"
    ensures GetCountry(country) == Failure(CountryNotYetImplemented(country))
  {
    NoMemberNamed(Upper(country));
  }

  /** Names longer than every member's match no member. */
  lemma NoMemberNamed(name: string)
    requires |name| > 17
    ensures forall c: Country :: c.Name() != name
  {
  }

  /** No two members share a code: the `country` parameter identifies the member. */
  lemma CodesInjective()
    ensures forall a: Country, b: Country :: a.Code() == b.Code() ==> a == b
  {
  }

  /** No two members share a name, so a successful lookup has only one possible answer. */
  lemma NamesInjective()
    ensures forall a: Country, b: Country :: a.Name() == b.Name() ==> a == b
  {
  }

  /** A name picks out one member. */
  lemma NameIdentifies(a: Country, b: Country)
    requires a.Name() == b.Name()
    ensures a == b
  {
    NamesInjective();
  }

  /** The three endpoint paths are distinct. */
  lemma EndPointPathsDistinct()
    ensures forall a: APIEndPoint, b: APIEndPoint :: a.Path() == b.Path() ==> a == b
  {
  }
}
