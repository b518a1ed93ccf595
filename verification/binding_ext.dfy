/** `Binding(ifNotNil:)`: a `Bool` binding over an optional value. It reads
    true while the value is present; writing false clears the value, and
    writing true does nothing. */
module BindingExt {
  import opened Wrappers

  /** The getter. */
  function Get<T>(value: Option<T>): (r: bool)
    ensures r <==> value.Some?
  {
    value != None
  }

  /** The setter: the optional value after `newValue` is written. */
  function Set<T>(value: Option<T>, newValue: bool): (r: Option<T>)
    ensures !newValue ==> r == None
    ensures newValue ==> r == value
  {
    if !newValue then None else value
  }

  /** Writing back what was read changes nothing. */
  lemma SetWhatWasRead<T>(value: Option<T>)
    ensures Set(value, Get(value)) == value
  {
  }

  /** Writing false is always read back; writing true is read back only when
      a value was already there, since the binding cannot create one. */
  lemma ReadAfterWrite<T>(value: Option<T>, newValue: bool)
    ensures Get(Set(value, newValue)) == (newValue && value.Some?)
    ensures Get(Set(value, newValue)) == newValue <==> !newValue || value.Some?
  {
  }

  /** The second of two writes decides. */
  lemma LastWriteDecides<T>(value: Option<T>, first: bool, second: bool)
    ensures Set(Set(value, first), second) == (if first then Set(value, second) else None)
  {
  }
}
