/** The process-wide settings (Configuration.php): the axis order and the
    default SRID. The two static fields become the fields of one object that
    the caller owns and passes around. */
module Config {
  import opened Values

  const ORDER_LON_FIRST: int := 0
  const ORDER_LAT_FIRST: int := 1

  class Configuration {
    /** The stored order; None while setOrder has never been called. */
    var order: Option<int>
    /** The stored default SRID; None while setDefaultSrid has never been called. */
    var defaultSrid: Option<int>

    /** Only a validated order and a clamped SRID are ever stored. */
    ghost predicate Valid()
      reads this
    {
      && (order.Some? ==> order.value == ORDER_LON_FIRST || order.value == ORDER_LAT_FIRST)
      && (defaultSrid.Some? ==> defaultSrid.value >= 0)
    }

    /** Both static fields start out null. */
    constructor ()
      ensures Valid()
      ensures order == None && defaultSrid == None
    {
      order := None;
      defaultSrid := None;
    }

    /** setOrder: only 0 (longitude first) and 1 (latitude first) are
        accepted; anything else raises a range error and keeps the order.
        The default SRID is never touched. */
    method SetOrder(o: int) returns (outcome: Outcome)
      requires Valid()
      modifies this
      ensures Valid()
      ensures o == ORDER_LON_FIRST || o == ORDER_LAT_FIRST ==> outcome == Done && GetOrder() == o
      ensures o != ORDER_LON_FIRST && o != ORDER_LAT_FIRST ==>
        outcome == Failed(InvalidOrder) && order == old(order)
      ensures defaultSrid == old(defaultSrid)
    {
      if o != ORDER_LAT_FIRST && o != ORDER_LON_FIRST {
        return Failed(InvalidOrder);
      }
      order := Some(o);
      outcome := Done;
    }

    /** getOrder: the stored order, longitude first when none was set. */
    function GetOrder(): (o: int)
      reads this
      requires Valid()
      ensures o == ORDER_LON_FIRST || o == ORDER_LAT_FIRST
      ensures order.None? ==> o == ORDER_LON_FIRST
      ensures order.Some? ==> o == order.value
    {
      if order.None? then ORDER_LON_FIRST else order.value
    }

    /** setDefaultSrid: a negative SRID is clamped to 0; the order is never
        touched. */
    method SetDefaultSrid(srid: int)
      requires Valid()
      modifies this
      ensures Valid()
      ensures GetDefaultSrid() == (if srid < 0 then 0 else srid)
      ensures srid >= 0 ==> GetDefaultSrid() == srid
      ensures order == old(order)
    {
      var clamped := srid;
      if clamped < 0 {
        clamped := 0;
      }
      defaultSrid := Some(clamped);
    }

    /** getDefaultSrid: the stored default, 0 when none was set; never
        negative. */
    function GetDefaultSrid(): (s: int)
      reads this
      requires Valid()
      ensures s >= 0
      ensures defaultSrid.None? ==> s == 0
      ensures defaultSrid.Some? ==> s == defaultSrid.value
    {
      if defaultSrid.None? then 0 else defaultSrid.value
    }
  }
}
