/**
  The closed integer enumerations of the Hydrus client API (the `enum.IntEnum`
  classes of the binding). Each enumeration is a datatype whose `Code` is the
  integer the service sends; `...FromCode` is what calling the enum class on an
  integer does: the member with that value, or nothing (Python raises
  ValueError). Every class is `@enum.unique`, so codes are pairwise distinct.
*/
module Vocabulary {
  import opened Wrappers

  /** Basic permissions an access key may be granted. */
  datatype Permission = ImportURLs | ImportFiles | AddTags | SearchFiles {
    function Code(): int {
      match this
      case ImportURLs => 0
      case ImportFiles => 1
      case AddTags => 2
      case SearchFiles => 3
    }
  }

  function PermissionFromCode(n: int): (r: Option<Permission>)
    ensures r.Some? <==> 0 <= n <= 3
    ensures r.Some? ==> r.value.Code() == n
    ensures forall p: Permission :: p.Code() == n ==> r == Some(p)
  {
    if n == 0 then Some(ImportURLs)
    else if n == 1 then Some(ImportFiles)
    else if n == 2 then Some(AddTags)
    else if n == 3 then Some(SearchFiles)
    else None
  }

  /** How the service classifies a URL; there is no kind with code 1. */
  datatype URLType = PostURL | FileURL | GalleryURL | WatchableURL | UnknownURL {
    function Code(): int {
      match this
      case PostURL => 0
      case FileURL => 2
      case GalleryURL => 3
      case WatchableURL => 4
      case UnknownURL => 5
    }
  }

  function URLTypeFromCode(n: int): (r: Option<URLType>)
    ensures r.Some? <==> n in {0, 2, 3, 4, 5}
    ensures r.Some? ==> r.value.Code() == n
    ensures forall u: URLType :: u.Code() == n ==> r == Some(u)
  {
    if n == 0 then Some(PostURL)
    else if n == 2 then Some(FileURL)
    else if n == 3 then Some(GalleryURL)
    else if n == 4 then Some(WatchableURL)
    else if n == 5 then Some(UnknownURL)
    else None
  }

  /** What happened to a submitted file; codes 5 and 6 are not used. */
  datatype ImportStatus = Importable | Success | Exists | PreviouslyDeleted | Failed | Vetoed {
    function Code(): int {
      match this
      case Importable => 0
      case Success => 1
      case Exists => 2
      case PreviouslyDeleted => 3
      case Failed => 4
      case Vetoed => 7
    }
  }

  function ImportStatusFromCode(n: int): (r: Option<ImportStatus>)
    ensures r.Some? <==> n in {0, 1, 2, 3, 4, 7}
    ensures r.Some? ==> r.value.Code() == n
    ensures forall s: ImportStatus :: s.Code() == n ==> r == Some(s)
  {
    if n == 0 then Some(Importable)
    else if n == 1 then Some(Success)
    else if n == 2 then Some(Exists)
    else if n == 3 then Some(PreviouslyDeleted)
    else if n == 4 then Some(Failed)
    else if n == 7 then Some(Vetoed)
    else None
  }

  /** Content update actions on tags. */
  datatype TagAction = Add | Delete | Pend | RescindPending | Petition | RescindPetition {
    function Code(): int {
      match this
      case Add => 0
      case Delete => 1
      case Pend => 2
      case RescindPending => 3
      case Petition => 4
      case RescindPetition => 5
    }
  }

  function TagActionFromCode(n: int): (r: Option<TagAction>)
    ensures r.Some? <==> 0 <= n <= 5
    ensures r.Some? ==> r.value.Code() == n
    ensures forall a: TagAction :: a.Code() == n ==> r == Some(a)
  {
    if n == 0 then Some(Add)
    else if n == 1 then Some(Delete)
    else if n == 2 then Some(Pend)
    else if n == 3 then Some(RescindPending)
    else if n == 4 then Some(Petition)
    else if n == 5 then Some(RescindPetition)
    else None
  }

  /** The status of a tag within one tag service. */
  datatype TagStatus = Current | Pending | Deleted | Petitioned {
    function Code(): int {
      match this
      case Current => 0
      case Pending => 1
      case Deleted => 2
      case Petitioned => 3
    }
  }

  function TagStatusFromCode(n: int): (r: Option<TagStatus>)
    ensures r.Some? <==> 0 <= n <= 3
    ensures r.Some? ==> r.value.Code() == n
    ensures forall t: TagStatus :: t.Code() == n ==> r == Some(t)
  {
    if n == 0 then Some(Current)
    else if n == 1 then Some(Pending)
    else if n == 2 then Some(Deleted)
    else if n == 3 then Some(Petitioned)
    else None
  }

  /** The enumeration classes themselves, i.e. what the binding calls to decode. */
  datatype EnumClass = PermissionClass | URLTypeClass | ImportStatusClass | TagActionClass | TagStatusClass

  /** A member of any of the enumerations; an IntEnum member is also an int. */
  datatype EnumMember =
    | PermissionMember(permission: Permission)
    | URLTypeMember(urlType: URLType)
    | ImportStatusMember(importStatus: ImportStatus)
    | TagActionMember(tagAction: TagAction)
    | TagStatusMember(tagStatus: TagStatus)
  {
    function Class(): EnumClass {
      match this
      case PermissionMember(_) => PermissionClass
      case URLTypeMember(_) => URLTypeClass
      case ImportStatusMember(_) => ImportStatusClass
      case TagActionMember(_) => TagActionClass
      case TagStatusMember(_) => TagStatusClass
    }

    function Code(): int {
      match this
      case PermissionMember(p) => p.Code()
      case URLTypeMember(u) => u.Code()
      case ImportStatusMember(s) => s.Code()
      case TagActionMember(a) => a.Code()
      case TagStatusMember(t) => t.Code()
    }
  }

  /** Calling an enumeration class on an integer: `ImportStatus(n)` and so on. */
  function Lookup(cls: EnumClass, n: int): (r: Option<EnumMember>)
    ensures r.Some? ==> r.value.Class() == cls && r.value.Code() == n
    ensures forall m: EnumMember :: m.Class() == cls && m.Code() == n ==> r == Some(m)
  {
    match cls
    case PermissionClass =>
      (match PermissionFromCode(n) case Some(p) => Some(PermissionMember(p)) case None => None)
    case URLTypeClass =>
      (match URLTypeFromCode(n) case Some(u) => Some(URLTypeMember(u)) case None => None)
    case ImportStatusClass =>
      (match ImportStatusFromCode(n) case Some(s) => Some(ImportStatusMember(s)) case None => None)
    case TagActionClass =>
      (match TagActionFromCode(n) case Some(a) => Some(TagActionMember(a)) case None => None)
    case TagStatusClass =>
      (match TagStatusFromCode(n) case Some(t) => Some(TagStatusMember(t)) case None => None)
  }
}
