/** A user-registered event mapper: absent (the identity) or a callback that
    returns an edited event or nothing, meaning "drop this event". */
module EventMappers {

  import opened Wrappers

  datatype EventMapper<!T> = Identity | UserMapper(callback: T -> Option<T>) {

    /** applyEventMapper. */
    function Apply(event: T): (r: Option<T>)
      ensures Identity? ==> r == Some(event)
      ensures UserMapper? ==> r == callback(event)
    {
      match this
      case Identity => Some(event)
      case UserMapper(f) => f(event)
    }
  }
}
