/** What a native Stop's receipt costs (crates/ctxmux-daemon/src/creation.rs:1345-1413,
  2428-2437).  The Registry shares one byte budget with the Input side. */
module ControlBudgets {
  import opened MapSums
  import opened RegistryModel

  const INPUT_RESULT_DIAGNOSTIC_RESERVE_BYTES: nat := 4096
  const MAX_STOP_OPERATION_KEY_BYTES: nat := 128

  /** The control result of a Stop; `diagnostic` is the length of the error message. */
  datatype StopResult = Accepted(disposition: nat) | NotApplied(reason: nat) | Unknown(reason: nat, diagnostic: nat)

  /** A key is the number its bytes spell, so many bytes long. */
  function KeyBytes(key: nat): nat { if key == 0 then 0 else 1 + KeyBytes(key / 256) }

  predicate KeyOk(key: nat) { 0 < KeyBytes(key) <= MAX_STOP_OPERATION_KEY_BYTES }

  /** Two copies of the key, the owners, and room for an ordinary diagnostic. */
  function StopCharge(limits: Limits, key: nat): nat {
    2 * KeyBytes(key) + limits.stopOwner + INPUT_RESULT_DIAGNOSTIC_RESERVE_BYTES
  }

  /** How far a retained diagnostic exceeds the room made for it. */
  function Overlong(result: StopResult): nat {
    Less(if result.Unknown? then result.diagnostic else 0, INPUT_RESULT_DIAGNOSTIC_RESERVE_BYTES)
  }

  /** What a handed-off operation is charged again by its successor. */
  function RestoredCharge(limits: Limits, key: nat, result: StopResult): nat {
    StopCharge(limits, key) + Overlong(result)
  }

  function StopBytes(entry: Entry): nat { if entry.stop.Some? then entry.stop.value.memory else 0 }

  /** The shared budget: bytes in use, of which some belong to entries that have left the
      Registry and are about to be dropped, and some to the Input side. */
  datatype Control = Control(used: int, leaving: nat, inputs: nat)

  /** Every byte in use has its owner, and the budget is never exceeded. */
  ghost predicate FundsOk(runs: map<nat, Entry>, c: Control, limits: Limits) {
    c.used == Total(runs, StopBytes) + c.leaving + c.inputs <= limits.control
  }

  function Spend(c: Control, bytes: nat): Control { c.(used := c.used + bytes) }

  function Refund(c: Control, bytes: nat): Control { c.(used := c.used - bytes) }

  /** Entries taken out keep their receipts funded until they are dropped. */
  function Leave(runs: map<nat, Entry>, ids: seq<nat>, c: Control): Control {
    c.(leaving := c.leaving + Weigh(runs, StopBytes, ids))
  }

  lemma FencingKeepsFunds(runs: map<nat, Entry>, ids: seq<nat>, residency: Residency, c: Control, limits: Limits)
    requires FundsOk(runs, c, limits)
    ensures FundsOk(WithResidency(runs, ids, residency), c, limits)
  {
    assert WithResidency(runs, ids, residency).Keys == runs.Keys;
    TotalAgree(WithResidency(runs, ids, residency), StopBytes, runs, StopBytes);
  }

  /** Entries leave the Registry with their receipts still funded. */
  lemma LeavingKeepsFunds(runs: map<nat, Entry>, ids: seq<nat>, c: Control, limits: Limits)
    requires FundsOk(runs, c, limits) && Distinct(ids) && forall id :: id in ids ==> id in runs
    ensures FundsOk(Without(runs, ids), Leave(runs, ids, c), limits)
  {
    TotalSplit(runs, StopBytes, ids);
  }

  lemma InsertKeepsFunds(runs: map<nat, Entry>, id: nat, entry: Entry, c: Control, limits: Limits)
    requires FundsOk(runs, c, limits) && id !in runs && entry.stop.None?
    ensures FundsOk(runs[id := entry], c, limits)
  {
    TotalWith(runs, StopBytes, id, entry);
  }

  /** Giving one entry another Stop record moves the total by the difference. */
  lemma SwapMovesFunds(runs: map<nat, Entry>, id: nat, entry: Entry)
    requires id in runs
    ensures Total(runs[id := entry], StopBytes) == Total(runs, StopBytes) - StopBytes(runs[id]) + StopBytes(entry)
  {
    TotalWithout(runs, StopBytes, id);
    TotalWithout(runs[id := entry], StopBytes, id);
    assert runs[id := entry] - {id} == runs - {id};
  }

  // ---------- The charges in numbers ----------

  function Power256(n: nat): nat { if n == 0 then 1 else 256 * Power256(n - 1) }

  /** A key of n bytes whose first is not zero spells a number of n base-256 digits. */
  lemma {:induction false} KeyBytesIs(key: nat, n: nat)
    requires n > 0
    ensures KeyBytes(key) == n <==> Power256(n - 1) <= key < Power256(n)
    decreases n
  {
    if n == 1 {
      assert Power256(0) == 1 && Power256(1) == 256;
      assert KeyBytes(key) == 1 <==> key > 0 && KeyBytes(key / 256) == 0;
    } else if key > 0 {
      KeyBytesIs(key / 256, n - 1);
      assert Power256(n - 1) == 256 * Power256(n - 2) && Power256(n) == 256 * Power256(n - 1);
    }
  }

  /** What a Stop is charged at admission, and by a successor that restores its result. */
  lemma ChargesAre(limits: Limits, key: nat, disposition: nat, reason: nat, diagnostic: nat)
    ensures StopCharge(limits, key) == 2 * KeyBytes(key) + limits.stopOwner + 4096
    ensures RestoredCharge(limits, key, Accepted(disposition)) == StopCharge(limits, key)
    ensures RestoredCharge(limits, key, Unknown(reason, diagnostic)) == StopCharge(limits, key) + if diagnostic > 4096 then diagnostic - 4096 else 0
    ensures KeyOk(key) <==> 1 <= KeyBytes(key) <= 128
  {
  }
}
