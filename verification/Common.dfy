// Vocabulary shared by every protocol model in this project.

module Common {

  datatype Option<+T> = None | Some(value: T)

  // An order as every script keys it: the intent and the hash of the approved request.
  datatype Binding = Binding(intent: string, request: string)

  // What one synchronous call into a worker did before control came back.
  // Interrupted stands for process death, or for an exception no handler catches.
  datatype Outcome = Finished | Interrupted

  // A directory to which files were only added: none is changed, none removed.
  ghost predicate Extends<K, V>(older: map<K, V>, newer: map<K, V>) {
    forall k :: k in older ==> k in newer && newer[k] == older[k]
  }
}
