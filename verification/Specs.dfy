/** Fields of a VM spec that several components read. */
module Specs {

  datatype RunPolicy = Always | RerunOnFailure | Once | Manual | Halted

  type Word = x: nat | x < 0x1_0000_0000 witness 0

  /** The product of two 32-bit numbers, which wraps around. */
  function Vcpus(sockets: Word, cores: Word): Word {
    (sockets * cores) % 0x1_0000_0000
  }
}
