/** Sizes and bounds that several components share. */
module Limits {
  const CELL_SIZE: nat := 1200
  const SEND_BATCH_CELLS: nat := 64
  const MAX_ROUTE_STREAMS: nat := 64
  const MAX_COUNTER: nat := 0xffff_ffff_ffff_ffff
  const MAX_WINDOW: nat := 4096
  const MAX_U32: nat := 0xffff_ffff

  function Min(a: nat, b: nat): nat
  {
    if a < b then a else b
  }
}
