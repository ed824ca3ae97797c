/**
 The closed vocabulary of lifecycle records (kiroku): enums, booleans and
 counters, and nothing else. The watchdog and the one-shot server emit these;
 module Kiroku prints them.
 */
module Lifecycle {
  datatype Component = Dazai | Motokano

  datatype ArmVia = Startup | Control

  datatype Reason =
    | LostHeartbeat
    | MissedPing
    | PanicSignal
    | HardPanicSignal
    | Shutdown
    | ClientQuit
    | CallsExhausted
    | ClientDisconnect
    | DaemonLost

  datatype KillTarget = Registered | SelfProcess

  datatype ReadKind = Static | Exec

  datatype Record =
    | SessionStart(armed: bool)
    | Arm(via: ArmVia)
    | Read(tool: nat, kind: ReadKind, served: bool)
    | Wipe(reason: Reason, buffers: nat)
    | Kill(reason: Reason, target: KillTarget, count: nat, executed: bool)
    | SessionEnd(reason: Reason)

  const U32_MAX: nat := 0xFFFF_FFFF

  /** Saturating `usize` to `u32`, as the emitters count. */
  function CountU32(n: nat): (r: nat)
    ensures n <= 0xFFFF_FFFF ==> r == n
    ensures n > 0xFFFF_FFFF ==> r == 0xFFFF_FFFF
  {
    if n <= U32_MAX then n else U32_MAX
  }
}
