/** Access modes: sets of permission flags. An absent mode in a request is `None`, a mode with no
    permissions is the empty set. */
module AccessMode {
  datatype Option<+T> = None | Some(value: T) {
    function GetOr(default: T): T {
      match this
      case Some(v) => v
      case None => default
    }
  }

  datatype Permission = Join | Read | Write | Pres | Approve | Share | Delete | Owner

  type Mode = set<Permission>

  const FULL: Mode := {Join, Read, Write, Pres, Approve, Share, Delete, Owner}

  predicate IsAdmin(m: Mode) {
    Owner in m || Approve in m
  }

  predicate IsSharer(m: Mode) {
    IsAdmin(m) || Share in m
  }
}
