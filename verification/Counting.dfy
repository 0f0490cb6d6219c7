module Counting {
  /** 1 for something that counts, 0 otherwise. */
  function One(b: bool): nat { if b then 1 else 0 }
}
