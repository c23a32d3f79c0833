/** The WPF command object of the dashboard: two settable delegates, one deciding
    whether the command may run and one that the command runs, plus the
    CanExecuteChanged event. */
module Commands {
  import opened Common

  /** One call of the command's action delegate, with the argument it received. */
  datatype Invocation<F, P> = Invocation(action: F, argument: P)

  /** `F` is the type of the action delegates, `D` that of the determiner delegates
      (a `Func<bool>` whose answer depends on the state it closes over, so it is
      evaluated by the caller through `eval`), `P` the command parameter. */
  class RelayCommand<F, D, P> {
    /** The `FunctionToExecute` property; None is a null delegate. */
    var functionToExecute: Option<F>
    /** The `CanExecuteDeterminer` property; None is a null delegate. */
    var canExecuteDeterminer: Option<D>
    /** How many handlers are subscribed to `CanExecuteChanged`. */
    var subscribers: nat
    /** How many times `CanExecuteChanged` was delivered to its subscribers. */
    var notifications: nat

    /** A fresh command: both delegates null, no subscriber. */
    constructor ()
      ensures functionToExecute == None && canExecuteDeterminer == None
      ensures subscribers == 0 && notifications == 0
    {
      functionToExecute := None;
      canExecuteDeterminer := None;
      subscribers := 0;
      notifications := 0;
    }

    /** `CanExecute(parameter)`: false without a determiner, otherwise exactly what the
        determiner answers; the parameter plays no part. */
    function CanExecute(parameter: P, eval: D -> bool): (r: bool)
      reads this
      ensures canExecuteDeterminer == None ==> !r
      ensures canExecuteDeterminer != None ==> (r <==> eval(canExecuteDeterminer.value))
    {
      match canExecuteDeterminer
      case None => false
      case Some(d) => eval(d)
    }

    /** `Execute(parameter)`: nothing happens without an action; otherwise the action is
        called once, with the parameter as given. The returned invocation is that call. */
    method Execute(parameter: P) returns (call: Option<Invocation<F, P>>)
      ensures functionToExecute == None <==> call == None
      ensures call != None ==> call.value.action == functionToExecute.value
      ensures call != None ==> call.value.argument == parameter
    {
      if functionToExecute == None {
        return None;
      }
      call := Some(Invocation(functionToExecute.value, parameter));
    }

    /** A handler subscribes to `CanExecuteChanged` (`+=`). */
    method Subscribe()
      modifies this`subscribers
      ensures subscribers == old(subscribers) + 1
      ensures notifications == old(notifications)
      ensures functionToExecute == old(functionToExecute)
      ensures canExecuteDeterminer == old(canExecuteDeterminer)
    {
      subscribers := subscribers + 1;
    }

    /** `RaiseCanExecuteChanged()`: the event reaches its subscribers when there are any
        and is skipped otherwise; neither delegate is touched. */
    method RaiseCanExecuteChanged()
      modifies this`notifications
      ensures notifications == old(notifications) + (if subscribers > 0 then 1 else 0)
      ensures subscribers == old(subscribers)
      ensures functionToExecute == old(functionToExecute)
      ensures canExecuteDeterminer == old(canExecuteDeterminer)
    {
      if subscribers > 0 {
        notifications := notifications + 1;
      }
    }
  }

  /** The parameter of `CanExecute` is ignored: two parameters always get the same answer. */
  lemma CanExecuteIgnoresParameter<F, D, P>(c: RelayCommand<F, D, P>, p: P, q: P, eval: D -> bool)
    ensures c.CanExecute(p, eval) == c.CanExecute(q, eval)
  {
  }
}
