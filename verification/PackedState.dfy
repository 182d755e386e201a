/** The packed word of futures-channel/src/mpsc/mod.rs: the open flag in the top bit of a
    64-bit `state`, the number of messages in the others.  A word is a number below 2^64;
    masking with OPEN_MASK and MAX_CAPACITY is dividing by 2^63. */
module PackedStates {

  const OPEN_MASK: nat := 0x8000_0000_0000_0000
  const MAX_CAPACITY: nat := OPEN_MASK - 1

  /** `MAX_CAPACITY >> 1`. */
  const MAX_BUFFER: nat := MAX_CAPACITY / 2

  type Word = w: nat | w < 0x1_0000_0000_0000_0000

  /** `State` of mpsc. */
  datatype Unpacked = Unpacked(isOpen: bool, numMessages: Word)

  /** `num & OPEN_MASK == OPEN_MASK` and `num & MAX_CAPACITY`. */
  function DecodeState(num: Word): Unpacked {
    Unpacked(num / OPEN_MASK == 1, num % OPEN_MASK)
  }

  /** `num |= OPEN_MASK` sets the top bit if it is clear. */
  function EncodeState(s: Unpacked): Word {
    if s.isOpen && s.numMessages < OPEN_MASK then s.numMessages + OPEN_MASK else s.numMessages
  }

  /** `fetch_sub(1)`, which wraps. */
  function FetchSubOne(num: Word): Word {
    if num == 0 then 0xFFFF_FFFF_FFFF_FFFF else num - 1
  }

  /** `fetch_and(!OPEN_MASK)`. */
  function FetchClearOpen(num: Word): Word {
    num % OPEN_MASK
  }

  /** Every word is the encoding of what it decodes to ... */
  lemma EncodeDecode(num: Word)
    ensures EncodeState(DecodeState(num)) == num
  {
    assert num == OPEN_MASK * (num / OPEN_MASK) + num % OPEN_MASK;
  }

  /** ... and a state survives encoding exactly when its count leaves the top bit free. */
  lemma DecodeEncodeIff(s: Unpacked)
    ensures DecodeState(EncodeState(s)) == s <==> s.numMessages <= MAX_CAPACITY
  {
  }

  /** `fetch_sub(1)` counts one message down and leaves the open bit alone exactly when there
      is a message to count. */
  lemma DecrementIff(num: Word)
    ensures DecodeState(FetchSubOne(num)) == DecodeState(num).(numMessages := DecodeState(FetchSubOne(num)).numMessages)
              && DecodeState(FetchSubOne(num)).numMessages == DecodeState(num).numMessages - 1
       <==> DecodeState(num).numMessages >= 1
  {
  }

  /** With none it borrows: an open, empty channel would turn into a closed one that claims to
      hold as many messages as can be counted. */
  lemma DecrementBorrows()
    ensures DecodeState(FetchSubOne(EncodeState(Unpacked(true, 0)))) == Unpacked(false, MAX_CAPACITY)
  {
  }

  /** Closing clears the flag and keeps the count, and does so only once. */
  lemma ClearOpenKeepsCount(num: Word)
    ensures DecodeState(FetchClearOpen(num)) == DecodeState(num).(isOpen := false)
    ensures FetchClearOpen(FetchClearOpen(num)) == FetchClearOpen(num)
  {
  }

  /** The next word of `inc_num_messages`, whose assertion is what keeps the count off the flag. */
  lemma IncrementIff(num: Word)
    requires DecodeState(num).isOpen
    ensures DecodeState(EncodeState(Next(DecodeState(num)))) == Next(DecodeState(num))
       <==> DecodeState(num).numMessages < MAX_CAPACITY
  {
  }

  /** `state.num_messages += 1` on an unpacked state. */
  function Next(s: Unpacked): Unpacked
    requires s.numMessages <= MAX_CAPACITY
  {
    s.(numMessages := s.numMessages + 1)
  }
}
