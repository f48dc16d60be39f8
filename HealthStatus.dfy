/** HealthStatus.js: the widget that asks the service for `/health` and
    shows the answer. Its four state cells become the fields of
    `Component`; `fetchHealth` is split into its synchronous start and its
    two completions, composed again by `FetchHealth`. The clock reading
    taken on success is passed in. */
module HealthStatus {
  import opened Wrappers
  import Web
  import Api
  import Labels

  const ConnectError := "Unable to connect to the API server"

  /** The health data as the widget reads it; `supported_classes` may be
      missing. */
  datatype Health = Health(
    status: string,
    modelLoaded: bool,
    tensorflowVersion: string,
    supportedClasses: Option<seq<string>>)

  /** The widget's reading of the service's `/health` body. */
  function FromReport(r: Api.HealthReport): (h: Health)
    ensures h.status == r.status && h.modelLoaded == r.modelLoaded
    ensures h.supportedClasses == Some(r.supportedClasses)
  {
    Health(r.status, r.modelLoaded, r.tensorflowVersion, Some(r.supportedClasses))
  }

  /** The three status icons and the colour each is drawn in. */
  datatype Icon = CheckCircleIcon | ErrorIcon | WarningIcon

  function IconColor(icon: Icon): Labels.Palette {
    match icon
    case CheckCircleIcon => Labels.Success
    case ErrorIcon => Labels.Error
    case WarningIcon => Labels.Warning
  }

  /** `getStatusColor`: "healthy" is green, "unhealthy" red, anything else
      orange. */
  function StatusColor(status: string): (p: Labels.Palette)
    ensures p == Labels.Success <==> status == "healthy"
    ensures p == Labels.Error <==> status == "unhealthy"
    ensures p != Labels.Default
  {
    if status == "healthy" then Labels.Success
    else if status == "unhealthy" then Labels.Error
    else Labels.Warning
  }

  /** `getStatusIcon`: the same three-way split as the colour. */
  function StatusIcon(status: string): (icon: Icon)
    ensures IconColor(icon) == StatusColor(status)
  {
    if status == "healthy" then CheckCircleIcon
    else if status == "unhealthy" then ErrorIcon
    else WarningIcon
  }

  /** `supported_classes?.length || 0`. */
  function ClassCount(h: Health): (n: nat)
    ensures h.supportedClasses.None? ==> n == 0
    ensures h.supportedClasses.Some? ==> n == |h.supportedClasses.value|
  {
    match h.supportedClasses
    case None => 0
    case Some(classes) => |classes|
  }

  /** Against this service, the status chip is green exactly when the model
      is loaded (red otherwise, never orange), and three classes are
      shown. */
  lemma ServiceHealthDisplay(modelLoaded: bool, tensorflowVersion: string)
    ensures var h := FromReport(Api.HealthCheck(modelLoaded, tensorflowVersion));
      && (StatusColor(h.status) == Labels.Success <==> modelLoaded)
      && StatusColor(h.status) != Labels.Warning
      && ClassCount(h) == 3
  {
  }

  /** What the widget renders: only the error alert while there is an
      error; otherwise the card with a spinner while loading, else the
      health panel when there is health data, and the time of the last
      successful check when there is one. */
  datatype View =
    | ErrorAlert(message: string)
    | StatusCard(spinner: bool, panel: Option<Health>, lastChecked: Option<int>)

  /** The time reference successful checks record. */
  type Timestamp = int

  /** How the awaited `/health` request ends; on success the clock is read. */
  datatype FetchReply = Fetched(data: Health, now: Timestamp) | Unreachable

  class Component {
    var health: Option<Health>
    var loading: bool
    var error: Option<string>
    var lastChecked: Option<Timestamp>

    /** The initial `useState` values: nothing known yet, loading. */
    constructor ()
      ensures health == None && loading && error == None && lastChecked == None
    {
      health := None;
      loading := true;
      error := None;
      lastChecked := None;
    }

    /** The synchronous part of `fetchHealth`. */
    method BeginFetch()
      modifies this
      ensures loading && error == None
      ensures health == old(health) && lastChecked == old(lastChecked)
    {
      loading := true;
      error := None;
    }

    /** The request resolved: the new data replace the old, and the check
        time is recorded. */
    method SucceedFetch(data: Health, now: Timestamp)
      modifies this
      ensures health == Some(data) && lastChecked == Some(now)
      ensures !loading && error == old(error)
    {
      health := Some(data);
      lastChecked := Some(now);
      loading := false;
    }

    /** The request failed: the fixed message, while the previous data and
        check time are kept. */
    method FailFetch()
      modifies this
      ensures error == Some(ConnectError) && !loading
      ensures health == old(health) && lastChecked == old(lastChecked)
    {
      error := Some(ConnectError);
      loading := false;
    }

    /** The whole `fetchHealth`, run to completion. */
    method FetchHealth(reply: FetchReply)
      modifies this
      ensures !loading
      ensures reply.Fetched? ==>
        health == Some(reply.data) && lastChecked == Some(reply.now) && error == None
        && Render() == StatusCard(false, Some(reply.data), Some(reply.now))
      ensures reply.Unreachable? ==>
        health == old(health) && lastChecked == old(lastChecked)
        && Render() == ErrorAlert(ConnectError)
    {
      BeginFetch();
      match reply
      case Fetched(data, now) => SucceedFetch(data, now);
      case Unreachable => FailFetch();
    }

    /** The rendered view. A non-empty error hides everything else. */
    function Render(): (v: View)
      reads this
      ensures v.ErrorAlert? <==> Web.Truthy(error)
      ensures v.StatusCard? ==> v.spinner == loading && v.lastChecked == lastChecked
      ensures v.StatusCard? ==> (v.panel.Some? <==> !loading && health.Some?)
    {
      if Web.Truthy(error) then ErrorAlert(error.value)
      else StatusCard(loading, if loading then None else health, lastChecked)
    }
  }
}
