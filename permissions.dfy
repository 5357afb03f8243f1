/**
 * The Health Connect permissions the activity needs and the test it applies
 * to a granted set (MainActivity.kt, `PERMISSIONS` and `containsAll`).
 */
module Permissions {
  datatype AccessMode = Read | Write

  /** A Health Connect permission: one access mode on one record type. */
  datatype HealthPermission = HealthPermission(mode: AccessMode, recordType: string)

  const STEPS_RECORD: string := "StepsRecord"
  const READ_STEPS: HealthPermission := HealthPermission(Read, STEPS_RECORD)
  const WRITE_STEPS: HealthPermission := HealthPermission(Write, STEPS_RECORD)

  /** `PERMISSIONS`: read and write access to step records, and nothing else. */
  function RequiredPermissions(): (p: set<HealthPermission>)
    ensures |p| == 2
    ensures forall q :: q in p <==> q.recordType == STEPS_RECORD
  {
    var p := {READ_STEPS, WRITE_STEPS};
    forall q: HealthPermission | q.recordType == STEPS_RECORD ensures q in p {
      if q.mode == Read { assert q == READ_STEPS; } else { assert q == WRITE_STEPS; }
    }
    p
  }

  /** `granted.containsAll(PERMISSIONS)`. */
  function ContainsAllPermissions(granted: set<HealthPermission>): (r: bool)
    ensures r <==> READ_STEPS in granted && WRITE_STEPS in granted
  {
    RequiredPermissions() <= granted
  }

  /** A set that grants more than is needed passes the test as well. */
  lemma SupersetPasses(granted: set<HealthPermission>, larger: set<HealthPermission>)
    requires granted <= larger && ContainsAllPermissions(granted)
    ensures ContainsAllPermissions(larger)
  {
  }

  /** A set that lacks either required permission fails the test. */
  lemma MissingOneFails(granted: set<HealthPermission>, p: HealthPermission)
    requires p in RequiredPermissions() && p !in granted
    ensures !ContainsAllPermissions(granted)
  {
  }
}
