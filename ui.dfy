/** The stand-alone text interface: one word per command. */
module UserInterface {
  import opened VideoTasks
  import Commands

  datatype UiCommand = UiQuit | UiHelp | UiInvalid

  /** ProcessInput's dispatch: "q"/"quit" quits, "h"/"help" shows help,
      anything else draws a warning. */
  function ParseInput(input: string): (c: UiCommand)
    ensures c == UiQuit <==> input in {"q", "quit"}
    ensures c == UiHelp <==> input in {"h", "help"}
  {
    if input == "q" || input == "quit" then UiQuit
    else if input == "h" || input == "help" then UiHelp
    else UiInvalid
  }

  /** The interface and the application agree on what a single word quits
      or asks for help. */
  lemma AgreesWithApplication(word: string)
    ensures ParseInput(word) == UiQuit <==> Commands.ParseTokens([word]) == Commands.Quit
    ensures ParseInput(word) == UiHelp <==> Commands.ParseTokens([word]) == Commands.Help(Commands.GeneralHelp)
  {
    assert [word][1..] == [];
  }

  class Ui {
    const shuttingDown: ShutdownFlag

    constructor (shuttingDown: ShutdownFlag)
      ensures this.shuttingDown == shuttingDown
    {
      this.shuttingDown := shuttingDown;
    }

    /** ProcessInput(input): only a quit command changes anything. */
    method ProcessInput(input: string)
      modifies shuttingDown
      ensures shuttingDown.raised == (old(shuttingDown.raised) || ParseInput(input) == UiQuit)
    {
      if input == "q" || input == "quit" {
        Quit();
      } else if input == "h" || input == "help" {
        // Help(): text output only
      } else {
        // a warning in the log only
      }
    }

    /** Quit(): raises the flag; raising it again keeps it raised. */
    method Quit()
      modifies shuttingDown
      ensures shuttingDown.raised
    {
      shuttingDown.raised := true;
    }

    /** One pass of TaskFcn's loop: once the flag is raised no further
        command is read or processed. */
    method Step(input: string) returns (continues: bool)
      modifies shuttingDown
      ensures continues == !old(shuttingDown.raised)
      ensures !continues ==> shuttingDown.raised
      ensures continues ==> shuttingDown.raised == (ParseInput(input) == UiQuit)
    {
      if shuttingDown.raised {
        return false;
      }
      ProcessInput(input);
      return true;
    }
  }
}
