/** The two image structures of the pipeline (a byte occupancy grid and an
    integer distance field) and their allocation, with the `ok` flag that
    signals an allocation failure. */
module Images {
  import opened Grid

  newtype byte = b: int | 0 <= b < 256

  /** The `ok` flag as allocBinImage and allocIntImage leave it: cleared when
      the allocator returned null, then set again unconditionally, so it
      reports success whatever the allocator did. */
  method AllocFlagAsWritten(gotNull: bool) returns (ok: bool)
    ensures ok
  {
    if gotNull {
      ok := false;
    }
    ok := true;
  }

  /** The `ok` flag as the allocators evidently intend it: success exactly
      when the allocator returned storage. */
  method AllocFlag(gotNull: bool) returns (ok: bool)
    ensures ok <==> !gotNull
  {
    if gotNull {
      ok := false;
    } else {
      ok := true;
    }
  }

  /** A null allocation: the allocators as written report success where the
      intended flag reports failure. */
  method NullAllocationReportedAsSuccess() returns (asWritten: bool, intended: bool)
    ensures asWritten && !intended
  {
    asWritten := AllocFlagAsWritten(true);
    intended := AllocFlag(true);
  }

  /** BinaryImage: one byte per voxel, 1 for empty and 0 for a voxel that
      holds a point. */
  class BinaryImage {
    var data: array?<byte>
    var Mx: int
    var My: int
    var Mz: int
    var length: int

    /** A declared image structure whose fields are not yet filled. */
    constructor ()
      ensures data == null
    {
      data := null;
      Mx, My, Mz, length := 0, 0, 0, 0;
    }

    function Shape(): Dims
      reads this
    {
      Dims(Mx, My, Mz)
    }

    ghost predicate Valid()
      reads this
    {
      Shape().Ok() && length == Shape().Size() && data != null && data.Length == length
    }

    /** allocBinImage with the intended flag. `fails` stands for the host
        allocator returning null. */
    method Alloc(fails: bool) returns (ok: bool)
      requires Shape().Ok()
      modifies this
      ensures Shape() == old(Shape()) && length == Shape().Size()
      ensures ok <==> !fails
      ensures ok ==> Valid() && fresh(data)
    {
      length := Mx * My * Mz;
      if fails {
        data := null;
      } else {
        data := new byte[length];
      }
      ok := AllocFlag(data == null);
    }
  }

  /** IntImage: one integer per voxel, the scaled chamfer distance. */
  class IntImage {
    var data: array?<int>
    var Mx: int
    var My: int
    var Mz: int
    var length: int

    /** A declared image structure whose fields are not yet filled. */
    constructor ()
      ensures data == null
    {
      data := null;
      Mx, My, Mz, length := 0, 0, 0, 0;
    }

    function Shape(): Dims
      reads this
    {
      Dims(Mx, My, Mz)
    }

    ghost predicate Valid()
      reads this
    {
      Shape().Ok() && length == Shape().Size() && data != null && data.Length == length
    }

    /** allocIntImage with the intended flag. `fails` stands for the host
        allocator returning null. */
    method Alloc(fails: bool) returns (ok: bool)
      requires Shape().Ok()
      modifies this
      ensures Shape() == old(Shape()) && length == Shape().Size()
      ensures ok <==> !fails
      ensures ok ==> Valid() && fresh(data)
    {
      length := Mx * My * Mz;
      if fails {
        data := null;
      } else {
        data := new int[length];
      }
      ok := AllocFlag(data == null);
    }
  }
}
