/** A table of 256 words laid out in sixteen rows: what makes every entry the generator's. */
module Crc32Layout {
  import opened Crc32Generator

  function Flatten(rows: seq<seq<bv32>>): (t: seq<bv32>) {
    if rows == [] then [] else Flatten(rows[..|rows| - 1]) + rows[|rows| - 1]
  }

  ghost predicate RowsOf16(rows: seq<seq<bv32>>) {
    forall r :: 0 <= r < |rows| ==> |rows[r]| == 16
  }

  lemma {:induction false} FlattenAt(rows: seq<seq<bv32>>, r: nat, j: nat)
    requires RowsOf16(rows) && r < |rows| && j < 16
    ensures |Flatten(rows)| == 16 * |rows| && Flatten(rows)[16 * r + j] == rows[r][j]
  {
    var n := |rows| - 1;
    FlattenLength(rows[..n]);
    if r < n {
      FlattenAt(rows[..n], r, j);
    }
  }

  lemma {:induction false} FlattenLength(rows: seq<seq<bv32>>)
    requires RowsOf16(rows)
    ensures |Flatten(rows)| == 16 * |rows|
  {
    if rows != [] {
      FlattenLength(rows[..|rows| - 1]);
    }
  }

  // ---------------------------------------------------------------- each entry is the generator's
  // Entry 2k is one step on from entry k, and entry 2k+1 differs from it by the polynomial.

  ghost predicate Pair(x: bv32, even: bv32, odd: bv32) {
    even == Step(x) && odd == even ^ POLY
  }

  /** Row b doubles the eight entries of row a that start at position at. */
  ghost predicate Doubles(a: seq<bv32>, at: nat, b: seq<bv32>) {
    && |a| == |b| == 16 && at <= 8
    && Pair(a[at], b[0], b[1]) && Pair(a[at + 1], b[2], b[3])
    && Pair(a[at + 2], b[4], b[5]) && Pair(a[at + 3], b[6], b[7])
    && Pair(a[at + 4], b[8], b[9]) && Pair(a[at + 5], b[10], b[11])
    && Pair(a[at + 6], b[12], b[13]) && Pair(a[at + 7], b[14], b[15])
  }

  ghost predicate RowDoubles(rows: seq<seq<bv32>>, r: nat)
    requires |rows| == 16 && r < 8
  {
    Doubles(rows[r], 0, rows[2 * r]) && Doubles(rows[r], 8, rows[2 * r + 1])
  }

  ghost predicate AllDouble(rows: seq<seq<bv32>>) {
    && |rows| == 16
    && forall r :: 0 <= r < 8 ==> RowDoubles(rows, r)
  }

  lemma EightRows(rows: seq<seq<bv32>>)
    requires |rows| == 16
    requires RowDoubles(rows, 0) && RowDoubles(rows, 1) && RowDoubles(rows, 2) && RowDoubles(rows, 3)
    requires RowDoubles(rows, 4) && RowDoubles(rows, 5) && RowDoubles(rows, 6) && RowDoubles(rows, 7)
    ensures AllDouble(rows)
  {
    hide RowDoubles;
  }

  lemma DoublesAt(a: seq<bv32>, at: nat, b: seq<bv32>, j: nat)
    requires Doubles(a, at, b) && j < 8
    ensures Pair(a[at + j], b[2 * j], b[2 * j + 1])
  {
    hide Pair;
    if j < 4 {
      assert j == 0 || j == 1 || j == 2 || j == 3;
    } else {
      assert j == 4 || j == 5 || j == 6 || j == 7;
    }
  }

  lemma AllDoubleRows(rows: seq<seq<bv32>>)
    requires AllDouble(rows)
    ensures RowsOf16(rows)
  {
    forall r | 0 <= r < 16
      ensures |rows[r]| == 16
    {
      assert RowDoubles(rows, r / 2);
      assert r == 2 * (r / 2) || r == 2 * (r / 2) + 1;
    }
  }

  /** Entry j of row r, and the two entries of the row it doubles into. */
  lemma FlatDoublesAt(rows: seq<seq<bv32>>, r: nat, at: nat, into: nat, j: nat)
    requires RowsOf16(rows) && |rows| == 16 && r < 16 && into < 16 && j < 8 && at <= 8
    requires Doubles(rows[r], at, rows[into])
    ensures |Flatten(rows)| == 256
    ensures Pair(Flatten(rows)[16 * r + at + j], Flatten(rows)[16 * into + 2 * j], Flatten(rows)[16 * into + 2 * j + 1])
  {
    DoublesAt(rows[r], at, rows[into], j);
    hide Doubles, Pair, Flatten;
    FlattenAt(rows, r, at + j);
    FlattenAt(rows, into, 2 * j);
    FlattenAt(rows, into, 2 * j + 1);
  }

  lemma FlatDoubles(rows: seq<seq<bv32>>, k: nat)
    requires AllDouble(rows) && k < 128
    ensures |Flatten(rows)| == 256
    ensures Pair(Flatten(rows)[k], Flatten(rows)[2 * k], Flatten(rows)[2 * k + 1])
  {
    AllDoubleRows(rows);
    var r, j := k / 16, k % 16;
    assert RowDoubles(rows, r);
    hide Doubles, Pair, Flatten, AllDouble, RowsOf16;
    if j < 8 {
      FlatDoublesAt(rows, r, 0, 2 * r, j);
    } else {
      FlatDoublesAt(rows, r, 8, 2 * r + 1, j - 8);
    }
  }

  ghost predicate EntryGenerated(t: seq<bv32>, word: bv32)
    requires word < 256 && |t| == 256
  {
    t[word as nat] == Generated(word)
  }

  function Even(half: bv32): bv32 {
    half << 1
  }

  function Odd(half: bv32): bv32 {
    (half << 1) ^ 1
  }

  lemma HalfWord(word: bv32, half: bv32)
    requires word < 256 && half == word >> 1
    ensures half < 128 && (word == 0 || half < word)
    ensures word == Even(half) || word == Odd(half)
  {
  }

  lemma TwiceWord(half: bv32)
    requires half < 128
    ensures Even(half) as nat == 2 * (half as nat)
    ensures Odd(half) as nat == 2 * (half as nat) + 1
  {
  }

  lemma {:induction false} FlatGenerated(rows: seq<seq<bv32>>, word: bv32)
    requires AllDouble(rows) && word < 256
    requires rows[0] != [] && rows[0][0] == 0
    ensures |Flatten(rows)| == 256 && EntryGenerated(Flatten(rows), word)
  {
    var half := word >> 1;
    HalfWord(word, half);
    FlatDoubles(rows, half as nat);
    if word == 0 {
      AllDoubleRows(rows);
      FlattenAt(rows, 0, 0);
    } else {
      hide *;
      FlatGenerated(rows, half);
      NextGenerated(Flatten(rows), word, half);
    }
  }

  lemma NextGenerated(t: seq<bv32>, word: bv32, half: bv32)
    requires |t| == 256 && word < 256 && half < 128 && (word == Even(half) || word == Odd(half))
    requires EntryGenerated(t, half)
    requires Pair(t[half as nat], t[2 * (half as nat)], t[2 * (half as nat) + 1])
    ensures EntryGenerated(t, word)
  {
    hide Generated, Pair, Even, Odd;
    TwiceWord(half);
    PairGenerated(half, t[half as nat], t[2 * (half as nat)], t[2 * (half as nat) + 1]);
  }

  lemma PairGenerated(half: bv32, x: bv32, y: bv32, z: bv32)
    requires half < 128 && x == Generated(half) && Pair(x, y, z)
    ensures y == Generated(Even(half)) && z == Generated(Odd(half))
  {
    hide Generated, Step;
    GeneratedEven(half);
    GeneratedOdd(half);
  }
}
