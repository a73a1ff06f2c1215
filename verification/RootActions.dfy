/** The actions that the daemon proposes each cycle. */
module RootActions {
  import opened Wrappers

  /** Why a decision was taken; only carried along. */
  type DecisionReason = string

  datatype RootAction =
    | BoostProcess(pid: U32, name: string, reason: string, decisionReason: DecisionReason,
                   startSec: U64, startUsec: U64)
    | ThrottleProcess(pid: U32, name: string, aggressive: bool, reason: string, decisionReason: DecisionReason,
                      startSec: U64, startUsec: U64)
    | FreezeProcess(pid: U32, name: string, reason: string, decisionReason: DecisionReason,
                    startSec: U64, startUsec: U64)
    | UnfreezeProcess(pid: U32, name: string, reason: string, decisionReason: DecisionReason,
                      startSec: U64, startUsec: U64)
    | SetSysctl(setting: string)
    | SetMemorystatus(pid: U32, priority: int, reason: string, decisionReason: DecisionReason)
    | ToggleSpotlight(enabled: bool, reason: string, decisionReason: DecisionReason)
    | QuarantineDaemon(daemon: string, active: bool, reason: string, decisionReason: DecisionReason)
    | SetThreadQoS(pid: U32, name: string, threadIndex: U32, tier: string, reason: string,
                   decisionReason: DecisionReason, affinityTag: Option<U32>, startSec: U64, startUsec: U64)
}
