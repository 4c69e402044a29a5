/**
 * The planning entity of the Capacitated Facility Location solver: a consumer
 * with a fixed id, a location, a demand, and the facility the search assigns
 * to it (null while unassigned).
 */
module Domain {
  import opened Wrappers
  import opened Decimal

  /** A Java `long`. */
  newtype Long = x: int | -0x8000_0000_0000_0000 <= x < 0x8000_0000_0000_0000

  /**
   * A point on the map. Its coordinates and its distance computation
   * (`Location.getDistanceTo`) are not part of this model; the distance is
   * passed to the operations that need it.
   */
  class Location {
  }

  /** A facility, seen only through its location. */
  class Facility {
    const location: Location

    constructor (location: Location)
      ensures this.location == location
    {
      this.location := location;
    }
  }

  /** The exception a consumer operation can throw. */
  datatype ConsumerError = IllegalState(message: string)

  const NoFacilityAssigned := IllegalState("No facility is assigned.")

  const TextPrefix := "Consumer "
  const TextInfix := " ("
  const TextSuffix := " dem)"

  /** The text `Consumer <id> (<demand> dem)` with both numbers in decimal. */
  function ConsumerText(id: int, demand: int): string {
    TextPrefix + DecimalString(id) + TextInfix + DecimalString(demand) + TextSuffix
  }

  /** The position of the first space in `s`, or `|s|` when there is none. */
  function IndexOfSpace(s: string): (k: nat)
    ensures k <= |s|
    ensures k < |s| ==> s[k] == ' '
    ensures forall i :: 0 <= i < k ==> s[i] != ' '
  {
    if s == [] || s[0] == ' ' then 0 else 1 + IndexOfSpace(s[1..])
  }

  /** Reads the id and the demand back out of a consumer's text; anything not of that form is rejected. */
  function ParseConsumerText(s: string): Option<(int, int)> {
    if |s| < |TextPrefix| + |TextSuffix|
       || s[..|TextPrefix|] != TextPrefix
       || s[|s| - |TextSuffix|..] != TextSuffix
    then None
    else
      var body := s[|TextPrefix|..|s| - |TextSuffix|];
      var k := IndexOfSpace(body);
      if |body| < k + |TextInfix| || body[k..k + |TextInfix|] != TextInfix then None
      else
        match (ParseDecimal(body[..k]), ParseDecimal(body[k + |TextInfix|..]))
        case (Some(id), Some(demand)) => Some((id, demand))
        case _ => None
  }

  /** The consumer's text holds its id and demand exactly: reading it back gives both. */
  lemma ConsumerTextRoundTrip(id: int, demand: int)
    ensures ParseConsumerText(ConsumerText(id, demand)) == Some((id, demand))
  {
    var a, b := DecimalString(id), DecimalString(demand);
    var s := ConsumerText(id, demand);
    assert s == TextPrefix + (a + TextInfix + b) + TextSuffix;
    assert s[..|TextPrefix|] == TextPrefix;
    assert s[|s| - |TextSuffix|..] == TextSuffix;
    var body := s[|TextPrefix|..|s| - |TextSuffix|];
    assert body == a + TextInfix + b;
    var k := IndexOfSpace(body);
    assert body[|a|] == ' ';
    assert k == |a|;
    assert body[..k] == a;
    assert body[k..k + |TextInfix|] == TextInfix;
    assert body[k + |TextInfix|..] == b;
    DecimalRoundTrip(id);
    DecimalRoundTrip(demand);
  }

  /** Two consumers with the same text have the same id and the same demand. */
  lemma ConsumerTextInjective(id1: int, demand1: int, id2: int, demand2: int)
    requires ConsumerText(id1, demand1) == ConsumerText(id2, demand2)
    ensures id1 == id2 && demand1 == demand2
  {
    ConsumerTextRoundTrip(id1, demand1);
    ConsumerTextRoundTrip(id2, demand2);
  }

  class Consumer {
    const id: Long
    var location: Location?
    var demand: Long
    var facility: Facility?

    /** The framework's no-argument constructor: every field at its default, unassigned. */
    constructor Empty()
      ensures id == 0 && location == null && demand == 0
      ensures facility == null && !IsAssigned()
    {
      id := 0;
      location := null;
      demand := 0;
      facility := null;
    }

    /** A consumer built from its id, location and demand starts unassigned. */
    constructor (id: Long, location: Location?, demand: Long)
      ensures this.id == id && this.location == location && this.demand == demand
      ensures facility == null && !IsAssigned()
    {
      this.id := id;
      this.location := location;
      this.demand := demand;
      facility := null;
    }

    predicate IsAssigned()
      reads this
      ensures IsAssigned() <==> facility != null
    {
      facility != null
    }

    /**
     * The distance from the assigned facility's location to this consumer's
     * location, measured by `distanceTo` with the facility's location as the
     * receiver; an `IllegalState` error when no facility is assigned.
     */
    function DistanceFromFacility(distanceTo: (Location, Location?) -> Long): (r: Result<Long, ConsumerError>)
      reads this
      ensures r.Success? <==> IsAssigned()
      ensures r.Failure? ==> r.error == NoFacilityAssigned
      ensures r.Success? ==> r.value == distanceTo(facility.location, location)
    {
      if facility == null then Failure(NoFacilityAssigned)
      else Success(distanceTo(facility.location, location))
    }

    function GetId(): (r: Long)
      reads this
      ensures r == id
    {
      id
    }

    function GetLocation(): (r: Location?)
      reads this
      ensures r == location
    {
      location
    }

    function GetDemand(): (r: Long)
      reads this
      ensures r == demand
    {
      demand
    }

    function GetFacility(): (r: Facility?)
      reads this
      ensures r == facility
      ensures r != null <==> IsAssigned()
    {
      facility
    }

    method SetLocation(location: Location?)
      modifies this`location
      ensures GetLocation() == location
      ensures demand == old(demand) && facility == old(facility)
    {
      this.location := location;
    }

    method SetDemand(demand: Long)
      modifies this`demand
      ensures GetDemand() == demand
      ensures location == old(location) && facility == old(facility)
    {
      this.demand := demand;
    }

    method SetFacility(facility: Facility?)
      modifies this`facility
      ensures GetFacility() == facility
      ensures IsAssigned() <==> facility != null
      ensures location == old(location) && demand == old(demand)
    {
      this.facility := facility;
    }

    /** The text of this consumer, from which its id and demand can be read back. */
    function ToString(): (s: string)
      reads this
      ensures |s| > |TextPrefix| && s[..|TextPrefix|] == TextPrefix
      ensures ParseConsumerText(s) == Some((id as int, demand as int))
    {
      ConsumerTextRoundTrip(id as int, demand as int);
      ConsumerText(id as int, demand as int)
    }
  }

  /**
   * Reassigning a consumer and then handing back the facility read before the
   * reassignment restores the consumer exactly.
   */
  method ReassignAndUndo(c: Consumer, f: Facility?)
    modifies c
    ensures c.facility == old(c.facility)
    ensures c.location == old(c.location) && c.demand == old(c.demand)
  {
    var previous := c.GetFacility();
    c.SetFacility(f);
    c.SetFacility(previous);
  }
}
