/**
 * The operating system's periodic background-task service, as far as the
 * settings screen sees it: named registrations with their options, and a
 * record of every request the app made, whether or not it succeeded.
 */
module BackgroundFetch {

  /** The options of a registration; `minimumInterval` is in seconds. */
  datatype FetchOptions = FetchOptions(minimumInterval: int, stopOnTerminate: bool, startOnBoot: bool)

  datatype Request =
    | Register(taskName: string, options: FetchOptions)
    | Unregister(taskName: string)

  class TaskService {
    /** The live registrations, by task name; registering a name again replaces its options. */
    var tasks: map<string, FetchOptions>
    /** Every request made so far, in order. */
    var requests: seq<Request>

    constructor ()
      ensures tasks == map[] && requests == []
    {
      tasks, requests := map[], [];
    }

    /** `registerTaskAsync(name, options)`; `fails` says whether the service rejects it. */
    method RegisterTask(name: string, options: FetchOptions, fails: bool) returns (ok: bool)
      modifies this
      ensures ok == !fails
      ensures requests == old(requests) + [Register(name, options)]
      ensures tasks == if ok then old(tasks)[name := options] else old(tasks)
    {
      requests := requests + [Register(name, options)];
      ok := !fails;
      if ok {
        tasks := tasks[name := options];
      }
    }

    /** `unregisterTaskAsync(name)`; `fails` says whether the service rejects it. */
    method UnregisterTask(name: string, fails: bool) returns (ok: bool)
      modifies this
      ensures ok == !fails
      ensures requests == old(requests) + [Unregister(name)]
      ensures tasks == if ok then old(tasks) - {name} else old(tasks)
    {
      requests := requests + [Unregister(name)];
      ok := !fails;
      if ok {
        tasks := tasks - {name};
      }
    }
  }
}
