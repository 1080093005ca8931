/** The route-start button of UIController: a click carries the requested
    length in kilometres and, when a world map is present, starts route
    generation with the matching RouteLength. */
module UiController {
  import opened Geometry
  import opened Routing

  /** The switch of ClickStartRoute: 2, 5 and 10 name a length; any other
      input leaves the enum at its unnamed default 0. */
  function ButtonLength(input: int): (length: Option<RouteLength>)
    ensures length.Some? <==> input == 2 || input == 5 || input == 10
    ensures length.Some? ==> length.value.Kilometres() == input
  {
    if input == 2 then Some(SHORT)
    else if input == 5 then Some(MIDDLE)
    else if input == 10 then Some(LONG)
    else None
  }

  /** The length handed to Map.BeginRouteGeneration, or None when the click
      returns early: no map, or an input that names no length. */
  function ClickStartRoute(mapPresent: bool, input: int): (started: Option<RouteLength>)
    ensures started.Some? <==> mapPresent && (input == 2 || input == 5 || input == 10)
    ensures started.Some? ==> started.value.Kilometres() == input
  {
    if !mapPresent then None
    else
      var length := ButtonLength(input);
      if length.None? then None else Some(length.value)
  }

  /** Every length has a button, and its button starts exactly that length. */
  lemma ClickRoundTrip(length: RouteLength)
    ensures ClickStartRoute(true, length.Kilometres()) == Some(length)
  {
  }

  /** Without a map no click starts a route. */
  lemma NoMapNoRoute(input: int)
    ensures ClickStartRoute(false, input) == None
  {
  }

  /** The route engine's target for a started route is the clicked number of
      kilometres, in metres. */
  lemma ClickTarget(mapPresent: bool, input: int)
    requires ClickStartRoute(mapPresent, input).Some?
    ensures TargetMetres(ClickStartRoute(mapPresent, input).value) == 1000 * input
  {
  }
}
