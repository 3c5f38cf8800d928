/** Checking a launch against the device (crates/vortex-backend/src/backend.rs). */
module Occupancy {
  import opened Options
  import opened Arithmetic

  const U64_LIMIT: nat := 0x1_0000_0000_0000_0000
  type U32 = n: nat | n < 0x1_0000_0000
  type U64 = n: nat | n < U64_LIMIT

  datatype Dim3 = Dim3(x: U32, y: U32, z: U32) {
    predicate HasZero() { x == 0 || y == 0 || z == 0 }
    function Product(): nat { x * y * z }
  }

  datatype Dims = Dims(grid: Dim3, block: Dim3, sharedMemoryBytes: U32)
  datatype Caps = Caps(threadsPerWarp: U64, warpsPerCore: U64, localMemoryBytes: U64)

  datatype Verdict =
    | Accepted | ZeroDimension | InvalidResources | BlockOverflow | CapsOverflow | TooManyThreads
    | TooManyWarps | NothingResident | LocalMemoryExceeded

  function WarpsPerBlock(d: Dims, c: Caps): nat
    requires c.threadsPerWarp > 0
  {
    DivCeil(d.block.Product(), c.threadsPerWarp)
  }

  /** A product of three is formed with two checked multiplications. */
  function CheckedProduct(d: Dim3): Option<nat> {
    if d.x * d.y >= U64_LIMIT || d.Product() >= U64_LIMIT then None else Some(d.Product())
  }

  function Validate(d: Dims, c: Caps): Verdict {
    if d.grid.HasZero() || d.block.HasZero() then ZeroDimension
    else if c.threadsPerWarp == 0 || c.warpsPerCore == 0 then InvalidResources
    else
      var product := CheckedProduct(d.block);
      if product.None? then BlockOverflow
      else if c.threadsPerWarp * c.warpsPerCore >= U64_LIMIT then CapsOverflow
      else if product.value > c.threadsPerWarp * c.warpsPerCore then TooManyThreads
      else if d.sharedMemoryBytes == 0 then Accepted
      else
        var warps := DivCeil(product.value, c.threadsPerWarp);
        if warps == 0 || warps > c.warpsPerCore then TooManyWarps
        else
          var resident := c.warpsPerCore / warps;
          if resident == 0 then NothingResident
          else if d.sharedMemoryBytes > c.localMemoryBytes / resident then LocalMemoryExceeded
          else Accepted
  }

  /** Rounding up stays within whatever number of whole units was enough. */
  lemma CeilWithin(a: nat, unit: nat, n: nat)
    requires unit > 0 && a <= unit * n
    ensures DivCeil(a, unit) <= n
    ensures a > 0 ==> DivCeil(a, unit) > 0
  {
    if a / unit > n {
      MulLe(n + 1, a / unit, unit);
    }
    if a / unit == n {
      assert a % unit == a - unit * n;
    }
  }

  lemma ShareFits(total: nat, parts: nat, each: nat)
    requires parts > 0
    ensures each <= total / parts <==> parts * each <= total
  {
    var q := total / parts;
    assert total == q * parts + total % parts;
    if each <= q {
      MulLe(each, q, parts);
    } else {
      MulLe(q + 1, each, parts);
    }
  }

  /** At least one workgroup is resident, and as many as fit do not need more warps than a core has. */
  lemma ResidentFit(warps: nat, perCore: nat)
    requires 0 < warps <= perCore
    ensures perCore / warps >= 1 && (perCore / warps) * warps <= perCore
  {
    ShareFits(perCore, warps, 1);
    ShareFits(perCore, warps, perCore / warps);
  }

  predicate Checkable(d: Dims, c: Caps) {
    && !d.grid.HasZero() && !d.block.HasZero() && c.threadsPerWarp > 0 && c.warpsPerCore > 0
    && d.block.Product() < U64_LIMIT && c.threadsPerWarp * c.warpsPerCore < U64_LIMIT
  }

  lemma ProductGrows(x: nat, y: nat, z: nat)
    requires z > 0
    ensures x * y <= x * y * z
  {
    MulLe(1, z, x * y);
  }

  /** After the thread-count check a block needs at least one warp and no more than a core has. */
  lemma WarpsFit(d: Dims, c: Caps)
    requires Checkable(d, c) && d.block.Product() <= c.threadsPerWarp * c.warpsPerCore
    ensures 0 < WarpsPerBlock(d, c) <= c.warpsPerCore
  {
    ProductPositive(d.block);
    CeilWithin(d.block.Product(), c.threadsPerWarp, c.warpsPerCore);
  }

  lemma ProductPositive(d: Dim3)
    requires !d.HasZero()
    ensures d.Product() > 0
  {
    MulLe(1, d.y, d.x);
    ProductGrows(d.x, d.y, d.z);
  }

  /** So two of the rejections are never given. */
  lemma UnreachableRejections(d: Dims, c: Caps)
    ensures Validate(d, c) != TooManyWarps && Validate(d, c) != NothingResident
  {
    hide DivCeil;
    if Checkable(d, c) && d.block.Product() <= c.threadsPerWarp * c.warpsPerCore {
      WarpsFit(d, c);
      ResidentFit(WarpsPerBlock(d, c), c.warpsPerCore);
    }
  }

  /** Exactly which launches are accepted: with R workgroups resident on a core, their shared memory fits. */
  lemma AcceptedIff(d: Dims, c: Caps)
    ensures Validate(d, c) == Accepted <==>
              && Checkable(d, c)
              && d.block.Product() <= c.threadsPerWarp * c.warpsPerCore
              && (d.sharedMemoryBytes != 0 ==>
                    WarpsPerBlock(d, c) > 0
                    && (c.warpsPerCore / WarpsPerBlock(d, c)) * d.sharedMemoryBytes <= c.localMemoryBytes)
  {
    hide DivCeil;
    if !d.block.HasZero() {
      ProductGrows(d.block.x, d.block.y, d.block.z);
    }
    if Checkable(d, c) && d.block.Product() <= c.threadsPerWarp * c.warpsPerCore {
      WarpsFit(d, c);
      var resident := c.warpsPerCore / WarpsPerBlock(d, c);
      ResidentFit(WarpsPerBlock(d, c), c.warpsPerCore);
      ShareFits(c.localMemoryBytes, resident, d.sharedMemoryBytes);
    }
  }

  lemma CeilCovers(a: nat, unit: nat)
    requires unit > 0
    ensures a <= DivCeil(a, unit) * unit
  {
    assert a == (a / unit) * unit + a % unit;
    assert (a / unit + 1) * unit == (a / unit) * unit + unit;
  }

  lemma AcceptedParts(d: Dims, c: Caps)
    requires Validate(d, c) == Accepted && d.sharedMemoryBytes != 0
    ensures c.threadsPerWarp > 0 && 0 < WarpsPerBlock(d, c) <= c.warpsPerCore
    ensures (c.warpsPerCore / WarpsPerBlock(d, c)) * d.sharedMemoryBytes <= c.localMemoryBytes
  {
    hide Validate, DivCeil, Dim3.Product;
    AcceptedIff(d, c);
    WarpsFit(d, c);
  }

  /** The guarantee of an accepted launch with shared memory. */
  lemma OccupancyGuarantee(d: Dims, c: Caps) returns (resident: nat)
    requires Validate(d, c) == Accepted && d.sharedMemoryBytes != 0
    ensures c.threadsPerWarp > 0 && WarpsPerBlock(d, c) > 0
    ensures resident == c.warpsPerCore / WarpsPerBlock(d, c) && resident >= 1
    ensures resident * WarpsPerBlock(d, c) <= c.warpsPerCore
    ensures resident * d.sharedMemoryBytes <= c.localMemoryBytes
    ensures d.block.Product() <= WarpsPerBlock(d, c) * c.threadsPerWarp
  {
    hide Validate, WarpsPerBlock, Dim3.Product;
    AcceptedParts(d, c);
    resident := c.warpsPerCore / WarpsPerBlock(d, c);
    ResidentFit(WarpsPerBlock(d, c), c.warpsPerCore);
    BlockCovered(d, c);
  }

  lemma BlockCovered(d: Dims, c: Caps)
    requires c.threadsPerWarp > 0
    ensures d.block.Product() <= WarpsPerBlock(d, c) * c.threadsPerWarp
  {
    hide DivCeil, Dim3.Product;
    CeilCovers(d.block.Product(), c.threadsPerWarp);
  }

  /** Why a launch is rejected. */
  lemma RejectionsIff(d: Dims, c: Caps)
    ensures var zero, resources := d.grid.HasZero() || d.block.HasZero(), c.threadsPerWarp > 0 && c.warpsPerCore > 0;
            var threads, limit := d.block.x * d.block.y * d.block.z, c.threadsPerWarp * c.warpsPerCore;
            && (Validate(d, c) == ZeroDimension <==> zero)
            && (Validate(d, c) == InvalidResources <==> !zero && !resources)
            && (Validate(d, c) == BlockOverflow <==> !zero && resources && threads >= U64_LIMIT)
            && (Validate(d, c) == CapsOverflow <==> !zero && resources && threads < U64_LIMIT && limit >= U64_LIMIT)
            && (Validate(d, c) == TooManyThreads <==> !zero && resources && limit < U64_LIMIT && limit < threads < U64_LIMIT)
  {
    hide DivCeil;
    if !d.block.HasZero() {
      ProductGrows(d.block.x, d.block.y, d.block.z);
    }
  }
}
