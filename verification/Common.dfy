// Notions several models share.
module Common {
  datatype Option<T> = None | Some(value: T)

  // ConnStatus of a connection.
  datatype Status = Disconnected | Connecting | Connected | Disconnecting

  predicate Open(s: Status) { s == Connected || s == Disconnecting }

  ghost predicate NoDup<T>(q: seq<T>) { forall i, j | 0 <= i < j < |q| :: q[i] != q[j] }
}
