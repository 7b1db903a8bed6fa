/** The colour of a disk: src/core/board/disk.rs. */
module Disks {

  /** A disk is either light (`o` in board layouts) or dark (`x`). */
  datatype Disk = Light | Dark

  /** `Disk::reverse`: the other colour. The source overwrites `*self` in place;
      the new value is this function of the old one. */
  function Reverse(d: Disk): (r: Disk)
    ensures r != d
  {
    match d
    case Light => Dark
    case Dark => Light
  }

  /** Reversing twice restores the colour. */
  lemma ReverseInvolutive(d: Disk)
    ensures Reverse(Reverse(d)) == d
  {
  }

  /** There are exactly two colours, so a colour is either `d` or its reverse. */
  lemma DiskIsOneOfTwo(d: Disk, e: Disk)
    ensures e == d || e == Reverse(d)
  {
  }
}
