/** The presence-or-absence type used wherever the route estimator's
    collaborators may come back empty-handed (Python's `None`). */
module Optional {

  datatype Option<+T> = None | Some(value: T)
}
