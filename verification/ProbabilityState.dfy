/** The record that a model builder keeps for each registered state. */
module ProbabilityStates {
  import opened Exploration

  class ProbabilityState {
    const index: nat
    var pi: real
    var terminal: bool
    var iterationLastSeen: nat
    var isNew: bool
    var wasPutInTerminalQueue: bool
    var deadlock: bool

    constructor (index: nat, pi: real, terminal: bool)
      ensures this.index == index
      ensures View() == Record(pi, terminal, 0, true, false, false)
    {
      this.index := index;
      this.pi := pi;
      this.terminal := terminal;
      iterationLastSeen := 0;
      isNew := true;
      wasPutInTerminalQueue := false;
      deadlock := false;
    }

    ghost function View(): Record
      reads this
    {
      Record(pi, terminal, iterationLastSeen, isNew, wasPutInTerminalQueue, deadlock)
    }

    method AddToPi(add: real)
      modifies this
      ensures View() == old(View()).(pi := old(pi) + add)
    {
      pi := pi + add;
    }

    method SetPi(pi: real)
      modifies this
      ensures View() == old(View()).(pi := pi)
    {
      this.pi := pi;
    }

    method SetTerminal(term: bool)
      modifies this
      ensures View() == old(View()).(terminal := term)
    {
      terminal := term;
    }
  }
}
