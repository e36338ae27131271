/** The states a backend can be in, and the check that tells them apart. */
module Health {

  datatype TargetState = Unknown | Healthy | Degraded

  predicate AllKnown(health: seq<TargetState>) {
    forall i :: 0 <= i < |health| ==> health[i] != Unknown
  }

  /** What comes back from the health URI within the timeout */
  datatype Probe = TimedOut | Refused | Answered(status: nat)

  /** BackendHealthChecker::check: always a known state, Healthy only for a success status */
  method Check(probe: Probe) returns (state: TargetState)
    ensures state != Unknown
    ensures state == Healthy <==> probe.Answered? && probe.status / 100 == 2
  {
    match probe {
      case TimedOut => return Degraded;
      case Refused => return Degraded;
      case Answered(status) =>
        if !(200 <= status < 300) {
          return Degraded;
        }
        return Healthy;
    }
  }
}
