/** The migration plan the selector fills: which region goes to which
    partition. Only the two operations the selector uses are modelled. */
module Plan {
  import opened MeshInterface

  class Migration {
    /** The destination recorded for each region sent so far. */
    var dest: map<Region, Part>

    constructor ()
      ensures dest == map[]
    {
      dest := map[];
    }

    /** Whether region e has been given a destination. */
    predicate Has(e: Region)
      reads this
    {
      e in dest
    }

    /** Records `to` as the destination of region e. */
    method Send(e: Region, to: Part)
      modifies this
      ensures dest == old(dest)[e := to]
    {
      dest := dest[e := to];
    }
  }
}
