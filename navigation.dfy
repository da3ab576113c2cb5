/** The app's navigation routes: building a route with arguments and reading the screen back. */
module Navigation {
  import opened Wrappers
  import opened Strings

  datatype Screen =
    | Home | Services | Profile | Login | Register | Appointment | Status
    | DocumentAdvisor | FeeCalculator | LocateCentre

  function Route(s: Screen): (route: string)
    ensures route != [] && forall i | 0 <= i < |route| :: route[i] != '/'
  {
    match s
    case Home => "home"
    case Services => "services"
    case Profile => "profile"
    case Login => "login"
    case Register => "register"
    case Appointment => "appointment"
    case Status => "status"
    case DocumentAdvisor => "document_advisor"
    case FeeCalculator => "fee_calculator"
    case LocateCentre => "locate_centre"
  }

  /** No two screens share a route. */
  lemma RoutesDistinct(a: Screen, b: Screen)
    requires Route(a) == Route(b)
    ensures a == b
  {
  }

  /** The "/arg" suffix `createRoute` appends for each argument, in order. */
  function JoinArgs(args: seq<string>): (suffix: string)
    ensures suffix == [] <==> args == []
    ensures args != [] ==> suffix[0] == '/'
  {
    if args == [] then "" else JoinArgs(args[..|args| - 1]) + "/" + args[|args| - 1]
  }

  /** `createRoute(*args)`: the screen's route, then "/" and each argument in turn. */
  method CreateRoute(s: Screen, args: seq<string>) returns (route: string)
    ensures route == Route(s) + JoinArgs(args)
  {
    route := Route(s);
    for i := 0 to |args|
      invariant route == Route(s) + JoinArgs(args[..i])
    {
      assert args[..i + 1][..i] == args[..i];
      route := route + "/" + args[i];
    }
    assert args[..|args|] == args;
  }

  /** `route.split("/").first()`: the text before the first "/", or all of it. */
  function BaseRoute(route: string): (base: string)
    ensures |base| <= |route| && base == route[..|base|]
    ensures forall i | 0 <= i < |base| :: base[i] != '/'
    ensures |base| < |route| ==> route[|base|] == '/'
  {
    var base := SubstringBefore(route, "/");
    if Contains(route, "/") then
      assert forall i | 0 <= i < |base| :: base[i] == route[i] && !OccursAt(route, "/", i);
      assert route[|base|..|base| + 1] == "/";
      base
    else
      NoSlashWithoutOccurrence(route);
      base
  }

  lemma NoSlashWithoutOccurrence(route: string)
    requires !Contains(route, "/")
    ensures forall i | 0 <= i < |route| :: route[i] != '/'
  {
    forall i | 0 <= i < |route|
      ensures route[i] != '/'
    {
      assert !OccursAt(route, "/", i);
      assert route[i..i + 1] == [route[i]];
    }
  }

  /** `fromRoute`: the screen whose route is the base route, and Home for anything else. */
  function FromRoute(route: string): (s: Screen)
    ensures Route(s) == BaseRoute(route) || s == Home
  {
    var base := BaseRoute(route);
    if base == Route(Home) then Home
    else if base == Route(Services) then Services
    else if base == Route(Profile) then Profile
    else if base == Route(Login) then Login
    else if base == Route(Register) then Register
    else if base == Route(Appointment) then Appointment
    else if base == Route(Status) then Status
    else if base == Route(DocumentAdvisor) then DocumentAdvisor
    else if base == Route(FeeCalculator) then FeeCalculator
    else if base == Route(LocateCentre) then LocateCentre
    else Home
  }

  /** A base route that names no screen, the empty one included, leads Home. */
  lemma UnknownRouteGoesHome(route: string)
    requires forall s: Screen :: Route(s) != BaseRoute(route)
    ensures FromRoute(route) == Home
  {
  }

  lemma EmptyRouteGoesHome()
    ensures FromRoute("") == Home
  {
    UnknownRouteGoesHome("");
  }

  /** The base route of a built route is the screen's own route. */
  lemma BaseRouteOfBuiltRoute(s: Screen, args: seq<string>)
    ensures BaseRoute(Route(s) + JoinArgs(args)) == Route(s)
  {
    var r := Route(s);
    var route := r + JoinArgs(args);
    assert forall i | 0 <= i < |r| :: route[i] == r[i];
    NoOccurrenceWithoutFirstChar(route, "/", |r|);
    if args == [] {
      assert route == r;
      assert !Contains(route, "/");
    } else {
      assert route[|r|..|r| + 1] == "/";
      FirstOccurrence(route, "/", |r|);
      assert route[..|r|] == r;
    }
  }

  /** Round trip: reading back any built route gives the screen it was built for. */
  lemma FromRouteOfCreatedRoute(s: Screen, args: seq<string>)
    ensures FromRoute(Route(s) + JoinArgs(args)) == s
    ensures FromRoute(Route(s)) == s
  {
    BaseRouteOfBuiltRoute(s, args);
    BaseRouteOfBuiltRoute(s, []);
    assert Route(s) + JoinArgs([]) == Route(s);
    var t := FromRoute(Route(s) + JoinArgs(args));
    if Route(t) == Route(s) {
      RoutesDistinct(t, s);
    }
  }
}
