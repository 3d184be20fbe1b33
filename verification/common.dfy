/** Result shapes shared by the protocol models. */
module Common {

  /** Zero stands for the empty string or the zero time of the original records. */
  type Uid = nat
  type Op = nat
  type Time = nat

  datatype Option<+T> = None | Some(value: T)

  /** What a read of the API returns: the object, a definite absence, or an error. */
  datatype Read<+T> = Found(value: T) | Missing | Unreadable

  /** What a write returns.  After Lost the write took effect but the caller saw an error. */
  datatype Outcome = Done | Lost | Rejected
}
