/**
 * Resolution of the services a target asks the SDK to start: the configured
 * list when there is one, otherwise the services named in the
 * comma-separated ServiceTypesString, otherwise the target's own service.
 */
module ServiceTypes {
  import opened Wrappers
  import opened Text
  import opened AppCenter

  /** The service one token names, by its suffix ignoring case; "Analytics" is tested before "Crashes". */
  function ServiceOfToken(token: string): Option<ServiceType>
  {
    if EndsWithIgnoreCase(token, "Analytics") then Some(Analytics)
    else if EndsWithIgnoreCase(token, "Crashes") then Some(Crashes)
    else None
  }

  /** The services named by the tokens, in token order; tokens naming neither service are dropped. */
  function ServicesOf(tokens: seq<string>): (r: seq<ServiceType>)
    ensures |r| <= |tokens|
    ensures forall t :: t in r ==> t == Analytics || t == Crashes
  {
    if tokens == [] then []
    else
      (match ServiceOfToken(tokens[0]) case Some(t) => [t] case None => []) + ServicesOf(tokens[1..])
  }

  lemma {:induction false} ServicesOfAppend(xs: seq<string>, ys: seq<string>)
    ensures ServicesOf(xs + ys) == ServicesOf(xs) + ServicesOf(ys)
  {
    if xs == [] {
      assert xs + ys == ys;
    } else {
      assert (xs + ys)[0] == xs[0];
      assert (xs + ys)[1..] == xs[1..] + ys;
      ServicesOfAppend(xs[1..], ys);
    }
  }

  /** The services named in a comma-separated string. */
  function ParseServiceTypes(s: string): seq<ServiceType>
  {
    ServicesOf(Split(s, ','))
  }

  /** At most one service per token, and only the two services known by name. */
  lemma ParsedServicesAreKnown(s: string)
    ensures |ParseServiceTypes(s)| <= |Split(s, ',')|
    ensures forall t :: t in ParseServiceTypes(s) ==> t == Analytics || t == Crashes
  {
  }

  /** The services of a list are those of the part before a comma followed by those of the part after it. */
  lemma ParseAtComma(a: string, b: string)
    ensures ParseServiceTypes(a + [','] + b) == ParseServiceTypes(a) + ParseServiceTypes(b)
  {
    SplitAtSeparator(a, b, ',');
    ServicesOfAppend(Split(a, ','), Split(b, ','));
  }

  /** A single token yields its service, or nothing when it names neither. */
  lemma ParseToken(token: string)
    requires token != [] && ',' !in token
    ensures ParseServiceTypes(token) == match ServiceOfToken(token) case Some(t) => [t] case None => []
  {
    SplitSingle(token, ',');
  }

  /** The empty string names no service. */
  lemma ParseEmpty()
    ensures ParseServiceTypes("") == []
  {
  }

  /**
   * The services passed to AppCenter.Start: the configured ServiceTypes when
   * non-empty, else those parsed from serviceTypesString, else [fallback].
   */
  function ResolveServiceTypes(configured: seq<ServiceType>, serviceTypesString: string, fallback: ServiceType): (r: seq<ServiceType>)
    ensures |r| > 0
    ensures |configured| > 0 ==> r == configured
    ensures |configured| == 0 && |ParseServiceTypes(serviceTypesString)| > 0 ==> r == ParseServiceTypes(serviceTypesString)
    ensures |configured| == 0 && |ParseServiceTypes(serviceTypesString)| == 0 ==> r == [fallback]
  {
    if |configured| > 0 then configured
    else
      var parsed := ParseServiceTypes(serviceTypesString);
      if |parsed| == 0 then [fallback] else parsed
  }

  /** Without a configured list, only Analytics, Crashes and the fallback can be started. */
  lemma ResolvedServicesAreKnown(serviceTypesString: string, fallback: ServiceType)
    ensures forall t :: t in ResolveServiceTypes([], serviceTypesString, fallback) ==> t in {Analytics, Crashes, fallback}
  {
    ParsedServicesAreKnown(serviceTypesString);
  }

  /** "Analytics, Crashes" starts both services, in that order, whatever the target. */
  lemma ResolveBothServices(fallback: ServiceType)
    ensures ResolveServiceTypes([], "Analytics, Crashes", fallback) == [Analytics, Crashes]
  {
    assert "Analytics, Crashes" == "Analytics" + [','] + " Crashes";
    ParseAtComma("Analytics", " Crashes");
    ParseBareName();
    ParseSpacedName();
  }

  /** A token naming a service yields exactly that service. */
  lemma ParseNamedToken(token: string, service: ServiceType)
    requires token != [] && ',' !in token && ServiceOfToken(token) == Some(service)
    ensures ParseServiceTypes(token) == [service]
  {
    ParseToken(token);
  }

  /** A token naming no service yields nothing. */
  lemma ParseUnnamedToken(token: string)
    requires token != [] && ',' !in token && ServiceOfToken(token) == None
    ensures ParseServiceTypes(token) == []
  {
    ParseToken(token);
  }

  lemma ParseBareName()
    ensures ParseServiceTypes("Analytics") == [Analytics]
  {
    BareNameToken();
    ParseNamedToken("Analytics", Analytics);
  }

  lemma BareNameToken()
    ensures ServiceOfToken("Analytics") == Some(Analytics) && ',' !in "Analytics"
  {
    EndsWithTail("", "Analytics");
    assert "" + "Analytics" == "Analytics";
  }

  /** Tokens are not trimmed, but a leading blank does not hide the suffix. */
  lemma ParseSpacedName()
    ensures ParseServiceTypes(" Crashes") == [Crashes]
  {
    SpacedNameToken();
    ParseNamedToken(" Crashes", Crashes);
  }

  lemma SpacedNameToken()
    ensures ServiceOfToken(" Crashes") == Some(Crashes) && ',' !in " Crashes"
  {
    EndsWithTail(" ", "Crashes");
    assert " " + "Crashes" == " Crashes";
  }

  /** Fully qualified type names are recognised by their suffix. */
  lemma ResolveQualifiedName(fallback: ServiceType)
    ensures ResolveServiceTypes([], "Microsoft.AppCenter.Crashes.Crashes", fallback) == [Crashes]
  {
    QualifiedNameToken();
    ParseNamedToken("Microsoft.AppCenter.Crashes.Crashes", Crashes);
  }

  lemma QualifiedNameToken()
    ensures ServiceOfToken("Microsoft.AppCenter.Crashes.Crashes") == Some(Crashes)
    ensures ',' !in "Microsoft.AppCenter.Crashes.Crashes"
  {
    var s := "Microsoft.AppCenter.Crashes.Crashes";
    assert s == "Microsoft.AppCenter.Crashes." + "Crashes";
    EndsWithTail("Microsoft.AppCenter.Crashes.", "Crashes");
    NotEndsWithAt(s, "Analytics", 7);
  }

  /** A string naming no known service falls back to the target's own service. */
  lemma ResolveUnknownFallsBack(fallback: ServiceType)
    ensures ResolveServiceTypes([], "Distribute", fallback) == [fallback]
    ensures ResolveServiceTypes([], "", fallback) == [fallback]
  {
    UnknownNameToken();
    ParseUnnamedToken("Distribute");
  }

  lemma UnknownNameToken()
    ensures ServiceOfToken("Distribute") == None && ',' !in "Distribute"
  {
    NotEndsWithAt("Distribute", "Analytics", 0);
    NotEndsWithAt("Distribute", "Crashes", 0);
  }

  /** Tokens are not trimmed: a trailing blank hides the service name and the token is dropped. */
  lemma ParseTrailingBlankDropped()
    ensures ParseServiceTypes("Crashes ") == []
  {
    TrailingBlankToken();
    ParseUnnamedToken("Crashes ");
  }

  lemma TrailingBlankToken()
    ensures ServiceOfToken("Crashes ") == None && ',' !in "Crashes "
  {
    NotEndsWithAt("Crashes ", "Crashes", 6);
  }
}
