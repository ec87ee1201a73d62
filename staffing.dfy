/**
 * The staffing records whose `save` derives fields from other fields: a resource's
 * status and availability from its date of joining, an allocation's status from its
 * billing type, and a requirement's fulfilment from its counts.
 */
module Staffing {
  import opened Wrappers
  import opened Calendar

  // ---------------------------------------------------------------- choices

  const Active := "Active"
  const Inactive := "Inactive"
  const ToJoin := "To-join"
  const OnLeave := "On-leave"

  const OnBench := "On Bench"
  const OnProjectFullTime := "On Project-Full Time"
  const OnProjectPartTime := "On Project-Part Time"
  const Available := "Available"

  const FullTime := "Full-Time"
  const PartTime := "Part-Time"

  // ---------------------------------------------------------------- resources

  /** `not self.pk`: a record never stored, whose primary key is unset (or zero). */
  predicate IsNew(pk: Option<nat>) {
    pk.None? || pk.value == 0
  }

  /**
   * The join date as `datetime.strptime(self.resource_DOJ, '%Y-%m-%d')` reads it; an unset
   * field is the `TypeError` the save swallows along with `ValueError`.
   */
  function JoinDate(doj: Option<string>): (r: Result<Date>)
    ensures r.Ok? ==> doj.Some? && ValidDate(r.value)
    ensures doj.Some? ==> r == ParseIsoDate(doj.value)
  {
    if doj.None? then Err("strptime() argument 1 must be str, not None") else ParseIsoDate(doj.value)
  }

  /** What a resource's save leaves in its status and availability, and whether it reaches the database. */
  datatype SaveOutcome = SaveOutcome(status: string, availability: Option<string>, saved: bool)

  /**
   * The save rules of a resource with these fields, on day `today`, with `stored` the
   * statuses the table holds by primary key (the `Resource.objects.get(pk=…)` lookup,
   * which raises `DoesNotExist` for a key it lacks; that exception is not caught).
   */
  function ResourceSave(status: string, availability: Option<string>, doj: Option<string>,
                        pk: Option<nat>, stored: map<nat, string>, today: Date): SaveOutcome
  {
    var cleared := if status == Inactive then None else availability;
    var joined := JoinDate(doj);
    if joined.Err? || status == Inactive || status == OnLeave then SaveOutcome(status, cleared, true)
    else if Before(today, joined.value) then SaveOutcome(ToJoin, cleared, true)
    else if IsNew(pk) then SaveOutcome(Active, Some(OnBench), true)
    else if pk.value !in stored then SaveOutcome(Active, cleared, false)
    else if stored[pk.value] == ToJoin then SaveOutcome(Active, Some(OnBench), true)
    else SaveOutcome(Active, cleared, true)
  }

  /** An inactive resource stays inactive, loses its availability, and is saved. */
  lemma SaveInactive(availability: Option<string>, doj: Option<string>, pk: Option<nat>,
                     stored: map<nat, string>, today: Date)
    ensures ResourceSave(Inactive, availability, doj, pk, stored, today) == SaveOutcome(Inactive, None, true)
  {
  }

  /** A resource on leave keeps its status and its availability whatever its join date. */
  lemma SaveOnLeave(availability: Option<string>, doj: Option<string>, pk: Option<nat>,
                    stored: map<nat, string>, today: Date)
    ensures ResourceSave(OnLeave, availability, doj, pk, stored, today) == SaveOutcome(OnLeave, availability, true)
  {
  }

  /** Only an `Inactive` status clears the availability. */
  lemma SaveClearsOnlyInactive(status: string, availability: Option<string>, doj: Option<string>,
                               pk: Option<nat>, stored: map<nat, string>, today: Date)
    requires availability.Some?
    ensures ResourceSave(status, availability, doj, pk, stored, today).availability.None? <==> status == Inactive
  {
  }

  /** A join date that is missing or not in `YYYY-MM-DD` form changes no status. */
  lemma SaveUnparseable(status: string, availability: Option<string>, doj: Option<string>,
                        pk: Option<nat>, stored: map<nat, string>, today: Date)
    requires doj.None? || ParseIsoDate(doj.value).Err?
    ensures var o := ResourceSave(status, availability, doj, pk, stored, today);
            o.status == status && o.saved &&
            o.availability == (if status == Inactive then None else availability)
  {
  }

  /** Any other status becomes `To-join` when the join date is still ahead, availability untouched. */
  lemma SaveFutureJoin(status: string, availability: Option<string>, doj: string,
                       pk: Option<nat>, stored: map<nat, string>, today: Date)
    requires status != Inactive && status != OnLeave
    requires ParseIsoDate(doj).Ok? && Before(today, ParseIsoDate(doj).value)
    ensures ResourceSave(status, availability, Some(doj), pk, stored, today) == SaveOutcome(ToJoin, availability, true)
  {
  }

  /**
   * Any other status becomes `Active` once the join date has come. The availability
   * becomes `On Bench` exactly when the record is new or the table holds it as `To-join`;
   * a record the table holds under any other status keeps its availability; and a key
   * the table lacks stops the save.
   */
  lemma SaveJoined(status: string, availability: Option<string>, doj: string,
                   pk: Option<nat>, stored: map<nat, string>, today: Date)
    requires status != Inactive && status != OnLeave
    requires ParseIsoDate(doj).Ok? && !Before(today, ParseIsoDate(doj).value)
    ensures var o := ResourceSave(status, availability, Some(doj), pk, stored, today);
            o.status == Active &&
            (o.saved <==> IsNew(pk) || pk.value in stored) &&
            (IsNew(pk) || (pk.value in stored && stored[pk.value] == ToJoin) ==> o.availability == Some(OnBench)) &&
            (!IsNew(pk) && (pk.value !in stored || stored[pk.value] != ToJoin) ==> o.availability == availability)
  {
  }

  /** A save leaves a status from the four choices when it starts from one. */
  lemma SaveStatusIsChoice(status: string, availability: Option<string>, doj: Option<string>,
                           pk: Option<nat>, stored: map<nat, string>, today: Date)
    requires status in {Active, Inactive, ToJoin, OnLeave}
    ensures ResourceSave(status, availability, doj, pk, stored, today).status in {Active, Inactive, ToJoin, OnLeave}
  {
  }

  /**
   * Saving again, once the table holds what the first save wrote under the record's
   * (nonzero) key, on the same day, changes nothing more.
   */
  lemma {:induction false} SaveStable(status: string, availability: Option<string>, doj: Option<string>,
                                      pk: Option<nat>, stored: map<nat, string>, today: Date, key: nat)
    requires key > 0
    requires ResourceSave(status, availability, doj, pk, stored, today).saved
    ensures var o := ResourceSave(status, availability, doj, pk, stored, today);
            ResourceSave(o.status, o.availability, doj, Some(key), stored[key := o.status], today) == o
  {
    var o := ResourceSave(status, availability, doj, pk, stored, today);
    var again := stored[key := o.status];
    assert key in again && again[key] == o.status;
    if JoinDate(doj).Ok? && o.status == Active {
      assert !Before(today, JoinDate(doj).value);
    }
  }

  /**
   * The day the join date arrives, a stored `To-join` resource saved again becomes
   * `Active` and `On Bench`.
   */
  lemma SaveOnJoinDay(availability: Option<string>, doj: string, key: nat,
                      stored: map<nat, string>, today: Date)
    requires key > 0 && key in stored && stored[key] == ToJoin
    requires ParseIsoDate(doj) == Ok(today)
    ensures ResourceSave(ToJoin, availability, Some(doj), Some(key), stored, today) == SaveOutcome(Active, Some(OnBench), true)
  {
    assert !Before(today, today);
  }

  /** The fields of a resource that its save reads or writes. */
  class Resource {
    var status: string
    var availability: Option<string>
    var doj: Option<string>
    var pk: Option<nat>

    /** A new, unsaved resource with the model's defaults: `To-join` and `Available`. */
    constructor(doj: Option<string>)
      ensures status == ToJoin && availability == Some(Available)
      ensures this.doj == doj && pk == None
    {
      status := ToJoin;
      availability := Some(Available);
      this.doj := doj;
      pk := None;
    }

    /**
     * `save()` on day `today`: the status and availability are updated step by step;
     * `Err` is the `DoesNotExist` raised when the table lacks the record's key, after the
     * status has already been set.
     */
    method Save(today: Date, stored: map<nat, string>) returns (r: Result<()>)
      modifies this`status, this`availability
      ensures var o := ResourceSave(old(status), old(availability), doj, pk, stored, today);
              status == o.status && availability == o.availability && (r.Ok? <==> o.saved)
    {
      if status == Inactive {
        availability := None;
      }
      var joined := JoinDate(doj);
      if joined.Ok? && status != Inactive && status != OnLeave {
        if Before(today, joined.value) {
          status := ToJoin;
        } else {
          status := Active;
          if IsNew(pk) {
            availability := Some(OnBench);
          } else if pk.value !in stored {
            return Err("Resource matching query does not exist.");
          } else if stored[pk.value] == ToJoin {
            availability := Some(OnBench);
          }
        }
      }
      r := Ok(());
    }
  }

  // ---------------------------------------------------------------- allocations

  /** The allocation status a save leaves, from the billing type and the status before it. */
  function AllocationStatus(billingType: string, current: string): string {
    if billingType == FullTime then OnProjectFullTime
    else if billingType == PartTime then OnProjectPartTime
    else current
  }

  /** The status an allocation must have for its billing type, when the type decides one. */
  predicate MatchesBilling(billingType: string, allocationStatus: string) {
    (billingType == FullTime ==> allocationStatus == OnProjectFullTime) &&
    (billingType == PartTime ==> allocationStatus == OnProjectPartTime)
  }

  /**
   * After a save the status matches the billing type; a status that already matched is
   * left as it was, so the save changes a status exactly when it did not match.
   */
  lemma AllocationSaveMatches(billingType: string, current: string)
    ensures MatchesBilling(billingType, AllocationStatus(billingType, current))
    ensures AllocationStatus(billingType, current) == current <==> MatchesBilling(billingType, current)
  {
  }

  /** Saving twice gives the status that saving once gives. */
  lemma AllocationSaveIdempotent(billingType: string, current: string)
    ensures AllocationStatus(billingType, AllocationStatus(billingType, current)) == AllocationStatus(billingType, current)
  {
  }

  /** A billing type from the choices decides the status whatever it was; no save puts a resource on the bench. */
  lemma AllocationStatusOfChoice(billingType: string, current: string, other: string)
    requires billingType in {FullTime, PartTime}
    ensures AllocationStatus(billingType, current) == AllocationStatus(billingType, other)
    ensures AllocationStatus(billingType, current) in {OnProjectFullTime, OnProjectPartTime}
  {
  }

  class Allocation {
    var billingType: string
    var allocationStatus: string

    constructor(billingType: string, allocationStatus: string)
      ensures this.billingType == billingType && this.allocationStatus == allocationStatus
    {
      this.billingType := billingType;
      this.allocationStatus := allocationStatus;
    }

    /** `save()`: the status is brought in line with the billing type, which is not changed. */
    method Save()
      modifies this`allocationStatus
      ensures allocationStatus == AllocationStatus(billingType, old(allocationStatus))
      ensures MatchesBilling(billingType, allocationStatus)
    {
      if billingType == FullTime {
        allocationStatus := OnProjectFullTime;
      } else if billingType == PartTime {
        allocationStatus := OnProjectPartTime;
      }
    }
  }

  // ---------------------------------------------------------------- requirements

  datatype Requirement = Requirement(numberRequired: int, fulfilledQuantity: int) {
    /** The `is_fulfilled` property: enough positions have been filled. */
    predicate IsFulfilled() {
      fulfilledQuantity >= numberRequired
    }
  }

  /** A requirement as created, with the default fulfilled quantity of zero. */
  function NewRequirement(numberRequired: int): (r: Requirement)
    ensures r.numberRequired == numberRequired && r.fulfilledQuantity == 0
  {
    Requirement(numberRequired, 0)
  }

  /** The fewest further positions whose filling makes the requirement fulfilled. */
  function Outstanding(r: Requirement): (n: nat)
    ensures r.fulfilledQuantity + n >= r.numberRequired
    ensures n > 0 ==> r.fulfilledQuantity + n == r.numberRequired
  {
    if r.fulfilledQuantity >= r.numberRequired then 0 else r.numberRequired - r.fulfilledQuantity
  }

  /** A requirement is fulfilled exactly when no position is outstanding. */
  lemma FulfilledIffNoneOutstanding(r: Requirement)
    ensures r.IsFulfilled() <==> Outstanding(r) == 0
  {
  }

  /** A new requirement for at least one position is unfulfilled; one for none is fulfilled. */
  lemma NewRequirementFulfilment(numberRequired: int)
    ensures NewRequirement(numberRequired).IsFulfilled() <==> numberRequired <= 0
  {
  }

  /** Filling more positions never makes a fulfilled requirement unfulfilled. */
  lemma FulfilmentMonotone(r: Requirement, more: int)
    requires more >= r.fulfilledQuantity
    ensures r.IsFulfilled() ==> r.(fulfilledQuantity := more).IsFulfilled()
  {
  }
}
