/** The checksum that guards every table of virtual methods. */
module VTableGuard {
  import opened Gf2
  import opened Crc32

  /** A table: the stored checksum, and the method area that follows it. */
  class VTable {
    var checksum: bv32
    const methods: array<bv8>

    constructor (methods: array<bv8>)
      ensures this.methods == methods
    {
      this.methods := methods;
    }
  }

  datatype Verdict = Absent | Sound | Crashed

  /** What the comparison in VTable_vaild asks. */
  predicate CheckPasses(checksum: bv32, area: seq<bv8>, rand: bv32) {
    checksum == TableSum(area, rand)
  }

  function TableSum(area: seq<bv8>, rand: bv32): bv32 {
    Crc(area, 0xffffffff) ^ rand
  }

  /** The process-wide secret VTable_rand, with the tables whose constructors have run. */
  class Guard {
    var rand: bv32
    ghost var loaded: set<VTable>

    /** No table is loaded before the secret is drawn, and every loaded table passes. */
    ghost predicate Valid()
      reads this, loaded, set t | t in loaded :: t.methods
    {
      && (loaded != {} ==> rand != 0)
      && forall t :: t in loaded ==> CheckPasses(t.checksum, t.methods[..], rand)
    }

    constructor ()
      ensures Valid() && rand == 0 && loaded == {}
    {
      rand := 0;
      loaded := {};
    }

    /** draws are the values rand() hands out; the loop needs one of them to be non-zero. */
    method RandInit(draws: seq<bv32>)
      requires exists i :: 0 <= i < |draws| && draws[i] != 0
      modifies this`rand
      ensures rand != 0
      ensures if old(rand) != 0 then rand == old(rand) else rand in draws
    {
      if rand == 0 {
        var i := 0;
        while i < |draws| && rand == 0
          invariant 0 <= i <= |draws|
          invariant if i == 0 then rand == 0 else rand == draws[i - 1]
          invariant forall j :: 0 <= j < i - 1 ==> draws[j] == 0
        {
          rand := draws[i];
          i := i + 1;
        }
      }
    }

    method Checksum(table: VTable) returns (sum: bv32)
      ensures sum == TableSum(table.methods[..], rand)
    {
      var crc := Xcrc32(table.methods, table.methods.Length, 0xffffffff);
      assert table.methods[..table.methods.Length] == table.methods[..];
      sum := crc ^ rand;
    }

    /** Run by the loader for each table, in any order; tables loaded earlier keep passing. */
    method Init(table: VTable, draws: seq<bv32>)
      requires Valid()
      requires exists i :: 0 <= i < |draws| && draws[i] != 0
      modifies this, table`checksum
      ensures Valid() && loaded == old(loaded) + {table}
      ensures old(loaded) != {} ==> rand == old(rand)
      ensures CheckPasses(table.checksum, table.methods[..], rand)
    {
      RandInit(draws);
      table.checksum := Checksum(table);
      loaded := loaded + {table};
    }

    method Vaild(table: VTable?) returns (v: Verdict)
      ensures v == Absent <==> table == null
      ensures v == Sound <==> table != null && CheckPasses(table.checksum, table.methods[..], rand)
      ensures Valid() && table in loaded ==> v == Sound
    {
      if table == null {
        return Absent;
      }
      var sum := Checksum(table);
      if table.checksum != sum {
        return Crashed;
      }
      return Sound;
    }
  }

  lemma XorSecret(x: bv32, y: bv32, rand: bv32)
    ensures x ^ rand == y ^ rand <==> x == y
  {
  }

  lemma SameSum(x: bv32, y: bv32, rand: bv32, p: bv32, q: bv32)
    requires p == x ^ rand && q == y ^ rand
    ensures p == q <==> x == y
  {
    XorSecret(x, y, rand);
  }

  lemma SumIs(area: seq<bv8>, rand: bv32)
    ensures TableSum(area, rand) == Crc(area, 0xffffffff) ^ rand
  {
  }

  lemma SecretHidesNothing(area: seq<bv8>, damaged: seq<bv8>, rand: bv32)
    ensures TableSum(area, rand) == TableSum(damaged, rand)
       <==> Crc(area, 0xffffffff) == Crc(damaged, 0xffffffff)
  {
    SumIs(area, rand);
    SumIs(damaged, rand);
    SameSum(Crc(area, 0xffffffff), Crc(damaged, 0xffffffff), rand, TableSum(area, rand), TableSum(damaged, rand));
  }

  /** A table that passes stops passing after any change inside 32 consecutive bits of its methods. */
  lemma DamageDetected(checksum: bv32, area: seq<bv8>, damaged: seq<bv8>, rand: bv32, lo: nat)
    requires CheckPasses(checksum, area, rand)
    requires |area| == |damaged| && DifferOnlyIn(MessageBits(area), MessageBits(damaged), lo, lo + 32)
    ensures CheckPasses(checksum, damaged, rand) <==> damaged == area
  {
    BurstChangesCrc(area, damaged, 0xffffffff, lo);
    SecretHidesNothing(area, damaged, rand);
  }
}
