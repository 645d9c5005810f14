/**
 * MediaUploadResult: the outcome of uploading one file, with three
 * properties whose setters refuse null. A null reference is `None`.
 */
module UploadResult {
  import opened Wrappers
  import opened Platform

  class MediaUploadResult {
    /** The created or revised media item, by id. */
    var item: Option<nat>
    /** The path the file was uploaded under. */
    var path: Option<string>
    /** The media path proposed for `path`. */
    var validMediaPath: Option<string>

    /** A result with every property still null. */
    constructor ()
      ensures item == None && path == None && validMediaPath == None
    {
      item := None;
      path := None;
      validMediaPath := None;
    }

    /** The Item setter: refuses null, otherwise replaces the item alone. */
    method SetItem(value: Option<nat>) returns (r: Outcome<Error>)
      modifies this
      ensures value.None? ==> r == Fail(ArgumentNull("value")) && item == old(item)
      ensures value.Some? ==> r == Pass && item == value
      ensures path == old(path) && validMediaPath == old(validMediaPath)
    {
      if value.None? {
        return Fail(ArgumentNull("value"));
      }
      item := value;
      r := Pass;
    }

    /** The Path setter: refuses null, otherwise replaces the path alone. */
    method SetPath(value: Option<string>) returns (r: Outcome<Error>)
      modifies this
      ensures value.None? ==> r == Fail(ArgumentNull("value")) && path == old(path)
      ensures value.Some? ==> r == Pass && path == value
      ensures item == old(item) && validMediaPath == old(validMediaPath)
    {
      if value.None? {
        return Fail(ArgumentNull("value"));
      }
      path := value;
      r := Pass;
    }

    /** The ValidMediaPath setter: refuses null, otherwise replaces the valid media path alone. */
    method SetValidMediaPath(value: Option<string>) returns (r: Outcome<Error>)
      modifies this
      ensures value.None? ==> r == Fail(ArgumentNull("value")) && validMediaPath == old(validMediaPath)
      ensures value.Some? ==> r == Pass && validMediaPath == value
      ensures item == old(item) && path == old(path)
    {
      if value.None? {
        return Fail(ArgumentNull("value"));
      }
      validMediaPath := value;
      r := Pass;
    }
  }
}
