/** The sizing rule of the io_uring settings (src/config.rs). */
module RingConfig {
  import opened Prelude

  const MIN_QUEUE_LEN: nat := 64
  const MIN_RECV_BUFFER_SIZE: nat := 512
  const MAX_RECV_BUFFER_SIZE: nat := 0x4000_0000
  const DEFAULT_RECV_BUFFERS: nat := 256
  const DEFAULT_RECV_BUFFER_SIZE: nat := 16 * 1024
  /** The most submission entries the kernel gives a ring. */
  const KERNEL_MAX: nat := 32768

  type U32 = n: nat | n < TWO_32
  type U16 = n: nat | n < 65536

  datatype Config = Config(
    queueLen: U32,
    sqpollWakeInterval: Option<U32>,
    boundedWorkers: Option<U32>,
    unboundedWorkers: Option<U32>,
    aggressivePoll: bool,
    iopollEnabled: bool,
    recvBuffers: U16,
    recvBufferSize: U32)

  /** The setting a refusal names, in the order they are looked at. */
  datatype Verdict = Accepted | BadQueueLen | BadRecvBuffers | BadRecvBufferSize

  // ----- powers of two

  predicate PowerOfTwo(n: nat) {
    n == 1 || (n > 1 && n % 2 == 0 && PowerOfTwo(n / 2))
  }

  /** The least power of two that is at least `n`. */
  function NextPowerOfTwo(n: nat): (r: nat)
    ensures PowerOfTwo(r) && n <= r
    ensures n >= 1 ==> r < 2 * n
  {
    if n <= 1 then 1 else 2 * NextPowerOfTwo((n + 1) / 2)
  }

  lemma {:induction false} NextIsLeast(n: nat, p: nat)
    requires PowerOfTwo(p) && n <= p
    ensures NextPowerOfTwo(n) <= p
  {
    if n > 1 {
      NextIsLeast((n + 1) / 2, p / 2);
    }
  }

  /** Between one power of two and the next there is none. */
  lemma {:induction false} NoneBetween(p: nat, q: nat)
    requires PowerOfTwo(p) && PowerOfTwo(q) && p < q
    ensures 2 * p <= q
  {
    if p > 1 {
      NoneBetween(p / 2, q / 2);
    }
  }

  // ----- the rule

  function SaturatingDouble(n: U32): U32 {
    Min(2 * n, TWO_32 - 1)
  }

  function Validate(c: Config): Verdict {
    if c.queueLen < MIN_QUEUE_LEN then BadQueueLen
    else if c.recvBuffers == 0 then Accepted
    else if !PowerOfTwo(c.recvBuffers) || c.recvBuffers >= SaturatingDouble(c.queueLen) then BadRecvBuffers
    else if !(MIN_RECV_BUFFER_SIZE <= c.recvBufferSize <= MAX_RECV_BUFFER_SIZE) then BadRecvBufferSize
    else Accepted
  }

  /** The ring's completion entries: the kernel rounds the submission entries up to a power of two,
      clamps them, and makes twice as many. */
  function CompletionEntries(queueLen: nat): nat {
    2 * Min(NextPowerOfTwo(queueLen), KERNEL_MAX)
  }

  /** For a power of two, below twice the entries asked for is at most the entries made. */
  lemma HalfTheCompletions(q: U32, r: U16)
    requires q >= 1 && PowerOfTwo(r)
    ensures r < SaturatingDouble(q) <==> 2 * r <= CompletionEntries(q)
  {
    var made := NextPowerOfTwo(q);
    if made < r {
      NoneBetween(made, r);
    }
    assert PowerOfTwo(KERNEL_MAX) by {
      PowersUpTo15();
    }
    if KERNEL_MAX < r {
      NoneBetween(KERNEL_MAX, r);
      assert false;
    }
  }

  lemma PowersUpTo15()
    ensures PowerOfTwo(256) && PowerOfTwo(KERNEL_MAX)
  {
    assert PowerOfTwo(16);
    assert PowerOfTwo(64);
    assert PowerOfTwo(256);
    assert PowerOfTwo(1024);
    assert PowerOfTwo(4096);
    assert PowerOfTwo(16384);
  }

  /** The receive group is a power of two and takes at most half the completion queue. */
  predicate GroupFits(c: Config) {
    PowerOfTwo(c.recvBuffers) && 2 * c.recvBuffers <= CompletionEntries(c.queueLen)
  }

  predicate SizeFits(c: Config) {
    MIN_RECV_BUFFER_SIZE <= c.recvBufferSize <= MAX_RECV_BUFFER_SIZE
  }

  /** Exactly the configurations whose receive group takes at most half the completion queue the
      kernel makes are accepted, and a refusal names the first setting at fault. */
  lemma VerdictExactly(c: Config)
    ensures Validate(c) == BadQueueLen <==> c.queueLen < MIN_QUEUE_LEN
    ensures Validate(c) == Accepted <==>
            c.queueLen >= MIN_QUEUE_LEN && (c.recvBuffers == 0 || (GroupFits(c) && SizeFits(c)))
    ensures Validate(c) == BadRecvBuffers <==> c.queueLen >= MIN_QUEUE_LEN && c.recvBuffers != 0 && !GroupFits(c)
    ensures Validate(c) == BadRecvBufferSize <==>
            c.queueLen >= MIN_QUEUE_LEN && c.recvBuffers != 0 && GroupFits(c) && !SizeFits(c)
  {
    if c.queueLen >= 1 && PowerOfTwo(c.recvBuffers) {
      HalfTheCompletions(c.queueLen, c.recvBuffers);
    }
  }

  // ----- the profiles

  /** The default group; the narrowing to 16 bits falls back on the default. */
  function DefaultRecvBuffers(queueLen: U32): U16 {
    var n := NextPowerOfTwo(Min(queueLen, DEFAULT_RECV_BUFFERS));
    if n < 65536 then n else DEFAULT_RECV_BUFFERS
  }

  function InterruptDriven(queueLen: U32): Config {
    Config(queueLen, None, None, None, false, false, DefaultRecvBuffers(queueLen), DEFAULT_RECV_BUFFER_SIZE)
  }

  function Default(): Config {
    InterruptDriven(2048).(boundedWorkers := Some(256), unboundedWorkers := Some(512))
  }

  function LowLatencyDriven(queueLen: U32): Config {
    Default().(queueLen := queueLen, sqpollWakeInterval := Some(2), aggressivePoll := true,
    recvBuffers := DefaultRecvBuffers(queueLen))
  }

  function KernelPollOnly(queueLen: U32): Config {
    Default().(queueLen := queueLen, sqpollWakeInterval := Some(2), aggressivePoll := false,
    recvBuffers := DefaultRecvBuffers(queueLen))
  }

  function IoPoll(queueLen: U32): Config {
    Default().(queueLen := queueLen, iopollEnabled := true, recvBuffers := DefaultRecvBuffers(queueLen))
  }

  /** The default group is 256 buffers, or the entries rounded up when that is fewer. */
  lemma DefaultGroup(q: U32)
    ensures DefaultRecvBuffers(q) == Min(NextPowerOfTwo(q), DEFAULT_RECV_BUFFERS)
  {
    hide PowerOfTwo, NextPowerOfTwo;
    PowersUpTo15();
    NextIsLeast(DEFAULT_RECV_BUFFERS, DEFAULT_RECV_BUFFERS);
    if q <= DEFAULT_RECV_BUFFERS {
      NextIsLeast(q, DEFAULT_RECV_BUFFERS);
    }
  }

  lemma DefaultGroupAccepted(c: Config)
    requires c.recvBuffers == DefaultRecvBuffers(c.queueLen) && c.recvBufferSize == DEFAULT_RECV_BUFFER_SIZE
    ensures Validate(c) == if c.queueLen >= MIN_QUEUE_LEN then Accepted else BadQueueLen
  {
    DefaultGroup(c.queueLen);
    PowersUpTo15();
    hide DefaultRecvBuffers, NextPowerOfTwo, PowerOfTwo;
  }

  /** Every profile is accepted for every queue length from the floor up, however large. */
  lemma ProfilesAccepted(q: U32)
    ensures Validate(InterruptDriven(q)) == Validate(LowLatencyDriven(q)) == Validate(KernelPollOnly(q))
            == Validate(IoPoll(q)) == if q >= MIN_QUEUE_LEN then Accepted else BadQueueLen
    ensures Validate(Default()) == Accepted
  {
    hide DefaultRecvBuffers, Validate;
    DefaultGroupAccepted(InterruptDriven(q));
    DefaultGroupAccepted(LowLatencyDriven(q));
    DefaultGroupAccepted(KernelPollOnly(q));
    DefaultGroupAccepted(IoPoll(q));
    DefaultGroupAccepted(Default());
  }
}
