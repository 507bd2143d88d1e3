/** What one upload produces (files_sender.py:53) and the progress event put on the queue for it (files_sender.py:55-66). */
module Outcomes {

  /** The HTTP status code that counts as a successful upload. */
  const OK: int := 200

  /** The triple a worker returns for one file: the path, the status code and the status name. */
  datatype Outcome = Outcome(file: string, code: int, reason: string)

  /**
   * A progress event: `{'file': f, 'done': name}` for a success, `{'file': f, 'error': name}` otherwise.
   * The constructor records the key and `name` the status name stored under it.
   */
  datatype Event = Done(file: string, name: string) | Error(file: string, name: string)

  predicate Succeeded(o: Outcome)
  {
    o.code == OK
  }

  /** The event queued for an outcome. */
  function EventOf(o: Outcome): (e: Event)
    ensures e.file == o.file
    ensures e.Done? <==> Succeeded(o)
    ensures e.name == o.reason
  {
    if o.code != OK then Error(o.file, o.reason) else Done(o.file, o.reason)
  }

  function EventFile(e: Event): string
  {
    e.file
  }
}
