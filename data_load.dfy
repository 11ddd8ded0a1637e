/**
 * src/main.rs: `load_data`, with the three fetches made parameters: what
 * each outcome leaves in the application.
 */
module DataLoad {
  import opened Wrappers
  import opened Api
  import opened Records
  import opened Tui
  import opened BanzukeMerge

  /**
   * What `load_data` leaves in the application, given the outcome of its
   * three fetches: a basho that loaded replaces the stored one, a bout list
   * replaces the stored one only when the response carries a list, and a
   * ranking list that loaded is merged and stored with its record map
   * rebuilt. A failed fetch leaves its part as it was, and nothing outside
   * the loaded data changes.
   */
  ghost function Reconcile(s: AppState, basho: Result<Basho>, torikumi: Result<TorikumiResponse>,
                           banzuke: Result<BanzukeResponse>): (t: AppState)
    ensures t == s.(data := t.data)
    ensures basho.Success? ==> t.data.basho == Some(basho.value)
    ensures basho.Failure? ==> t.data.basho == s.data.basho
    ensures torikumi.Success? && torikumi.value.torikumi.Some? ==> t.data.torikumi == torikumi.value.torikumi
    ensures torikumi.Failure? || torikumi.value.torikumi.None? ==> t.data.torikumi == s.data.torikumi
    ensures banzuke.Success? ==>
              var merged := Merge(banzuke.value.east, banzuke.value.west);
              t.data.banzuke == Some(merged) && t.data.recordMap == RecordsOf(merged)
    ensures banzuke.Failure? ==> t.data.banzuke == s.data.banzuke && t.data.recordMap == s.data.recordMap
    ensures Inv(s) ==> Inv(t)
    ensures RecordsCurrent(s.data) ==> RecordsCurrent(t.data)
  {
    var d0 := s.data;
    var d1 := if basho.Success? then d0.(basho := Some(basho.value)) else d0;
    var d2 := if torikumi.Success? && torikumi.value.torikumi.Some? then d1.(torikumi := torikumi.value.torikumi) else d1;
    var d3 := if banzuke.Success? then
                var merged := Merge(banzuke.value.east, banzuke.value.west);
                d2.(banzuke := Some(merged), recordMap := RecordsOf(merged))
              else d2;
    s.(data := d3)
  }

  /** `load_data`: stores what each fetch returned and always succeeds. */
  method LoadData(app: App, basho: Result<Basho>, torikumi: Result<TorikumiResponse>, banzuke: Result<BanzukeResponse>)
    returns (r: Result<()>)
    requires app.Valid()
    modifies app
    ensures app.Valid()
    ensures r == Success(())
    ensures app.State() == Reconcile(old(app.State()), basho, torikumi, banzuke)
  {
    match basho {
      case Success(b) => app.SetBasho(b);
      case Failure(_) =>
    }
    match torikumi {
      case Success(response) =>
        if response.torikumi.Some? {
          app.SetTorikumi(response.torikumi.value);
        }
      case Failure(_) =>
    }
    match banzuke {
      case Success(response) =>
        var all := MergeBanzuke(response.east, response.west);
        app.SetBanzuke(all);
      case Failure(_) =>
    }
    r := Success(());
  }
}
