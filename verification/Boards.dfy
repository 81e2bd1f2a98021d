/**
 The shape of one board and the closed-form layout of its variable map: the
 runtime variables in the firmware's order, block after block.
 */
module Boards {

  datatype Board = Board(
    sysVars: nat,
    digInputs: nat,
    digOutputs: nat,
    analogInputs: nat,
    canInputs: nat,
    canOutputs: nat,
    virtInputs: nat,
    outputs: nat,
    flashers: nat,
    conditions: nat,
    counters: nat,
    wiperVars: nat,
    keypads: nat,
    keypadButtons: nat,
    keypadDials: nat,
    keypadAnalogs: nat)
  {
    function DigInBase(): nat { sysVars }
    function DigOutBase(): nat { DigInBase() + digInputs }
    function AnalogBase(): nat { DigOutBase() + digOutputs }
    function CanInBase(): nat { AnalogBase() + 4 * analogInputs }
    function VirtBase(): nat { CanInBase() + 2 * canInputs }
    function OutputBase(): nat { VirtBase() + virtInputs }
    function FlasherBase(): nat { OutputBase() + 4 * outputs }
    function ConditionBase(): nat { FlasherBase() + flashers }
    function CounterBase(): nat { ConditionBase() + conditions }
    function WiperBase(): nat { CounterBase() + counters }
    function KeypadBase(): nat { WiperBase() + wiperVars }
    function KeypadVars(): nat { keypadButtons + keypadDials + keypadAnalogs }
    function Size(): nat { KeypadBase() + Total(keypads, KeypadVars()) }

    /** AlwaysFalse, AlwaysTrue and State exist on every board; there are five
        system variables at most and six wiper variables at most. */
    predicate Valid() { 3 <= sysVars <= 5 && wiperVars <= 6 }
  }

  /** n groups of m variables each. */
  function Total(n: nat, m: nat): nat { if n == 0 then 0 else Total(n - 1, m) + m }

  /** dingopdm_v7 */
  const DINGOPDM_V7 := Board(5, 2, 0, 0, 32, 32, 16, 8, 4, 32, 4, 6, 2, 20, 2, 4)
}
