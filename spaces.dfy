/**
 * `SpaceViewModel`: the administrator's create / update / delete of spaces.
 *
 * The calls it forwards to the shared store (`addSpace`, `updateSpace`,
 * `deleteSpace`) are recorded in a ghost log, since their effect on the store
 * is not part of this model. Copying a picked picture into app storage is an
 * oracle `persistImage` that yields the permanent URI or `None` when copying
 * fails. An exception from a forwarded call is an input: `Some(message)` when
 * the call throws, with the text the message renders as.
 */
module SpaceForm {
  import opened Wrappers
  import opened Text
  import opened Model

  const InvalidForm := "Por favor complete todos los campos correctamente"
  const NoContext := "Error: Contexto de la aplicaci\U{00F3}n no disponible"
  const CreateFailedPrefix := "Error al crear el espacio: "
  const UpdateFailedPrefix := "Error al actualizar el espacio: "
  const DeleteFailedPrefix := "Error al eliminar el espacio: "

  /** A call forwarded to the shared store. */
  datatype StoreCall = AddSpaceCall(space: Space) | UpdateSpaceCall(space: Space) | DeleteSpaceCall(spaceId: string)

  /** The guard shared by create and update: name and description not blank,
      capacity positive. Capacity text that is not a number reaches here as 0. */
  predicate FormIsValid(name: string, description: string, capacity: int) {
    !IsBlank(name) && !IsBlank(description) && capacity > 0
  }

  /** `saveImageToAppStorage`: no picked picture gives `None` without calling
      the storage; otherwise whatever persisting yields. */
  function PersistedImage(tempImageUri: Option<string>, persistImage: string -> Option<string>): (r: Option<string>)
    ensures tempImageUri == None ==> r == None
    ensures tempImageUri != None ==> r == persistImage(tempImageUri.value)
  {
    match tempImageUri
    case None => None
    case Some(uri) => persistImage(uri)
  }

  /** The space `createSpace` builds: new id, the form's fields, available,
      the default drawable as fallback and the persisted URI, if any. */
  function NewSpace(id: string, name: string, description: string, capacity: int, imageUri: Option<string>): (r: Space)
    ensures r.id == id && r.name == name && r.description == description && r.capacity == capacity
    ensures r.available && r.imageResource == SalonSocial && r.imageUri == imageUri
  {
    Space(id, name, description, capacity, true, SalonSocial, imageUri)
  }

  /** The space `updateSpace` builds from `space`: the form's fields replace
      name, description and capacity; id, availability and drawable stay; the
      URI changes only to a newly persisted picture. */
  function UpdatedSpace(space: Space, name: string, description: string, capacity: int,
                        tempImageUri: Option<string>, persistImage: string -> Option<string>): (r: Space)
    ensures r.id == space.id && r.available == space.available && r.imageResource == space.imageResource
    ensures r.name == name && r.description == description && r.capacity == capacity
    ensures r.imageUri != space.imageUri ==>
              tempImageUri.Some? && persistImage(tempImageUri.value) == r.imageUri && r.imageUri.Some?
    ensures tempImageUri.Some? && persistImage(tempImageUri.value).Some? ==>
              r.imageUri == persistImage(tempImageUri.value)
  {
    var permanent := if tempImageUri.Some? then PersistedImage(tempImageUri, persistImage) else space.imageUri;
    space.(name := name, description := description, capacity := capacity,
           imageResource := space.imageResource,
           imageUri := if permanent.Some? then permanent else space.imageUri)
  }

  class SpaceViewModel {
    var selectedSpace: Option<Space>
    var isLoading: bool
    var errorMessage: Option<string>
    /** `dashboardViewModel != null` */
    var storeAttached: bool
    /** `appContext != null` */
    var hasContext: bool
    /** Every call forwarded to the shared store, oldest first. */
    ghost var forwarded: seq<StoreCall>

    constructor ()
      ensures selectedSpace == None && !isLoading && errorMessage == None
      ensures !storeAttached && !hasContext && forwarded == []
    {
      selectedSpace, isLoading, errorMessage := None, false, None;
      storeAttached, hasContext := false, false;
      forwarded := [];
    }

    /** The start-up wiring that hands the shared store to this view model. */
    method AttachStore()
      modifies this`storeAttached
      ensures storeAttached
    {
      storeAttached := true;
    }

    /** `setContext` */
    method SetContext()
      modifies this`hasContext
      ensures hasContext
    {
      hasContext := true;
    }

    /** `setSelectedSpace` */
    method SetSelectedSpace(space: Space)
      modifies this`selectedSpace
      ensures selectedSpace == Some(space)
    {
      selectedSpace := Some(space);
    }

    /** `createSpace` */
    method CreateSpace(name: string, description: string, capacity: int, tempImageUri: Option<string>,
                       persistImage: string -> Option<string>, newId: string, storeFailure: Option<string>)
      returns (ok: bool)
      modifies this`isLoading, this`errorMessage, this`forwarded
      ensures !FormIsValid(name, description, capacity) ==>
                && !ok && errorMessage == Some(InvalidForm)
                && isLoading == old(isLoading) && forwarded == old(forwarded)
      ensures FormIsValid(name, description, capacity) ==> !isLoading
      ensures FormIsValid(name, description, capacity) && !hasContext ==>
                !ok && errorMessage == Some(NoContext) && forwarded == old(forwarded)
      ensures FormIsValid(name, description, capacity) && hasContext && !storeAttached ==>
                ok && errorMessage == old(errorMessage) && forwarded == old(forwarded)
      ensures FormIsValid(name, description, capacity) && hasContext && storeAttached ==>
                && forwarded == old(forwarded) +
                     [AddSpaceCall(NewSpace(newId, name, description, capacity, PersistedImage(tempImageUri, persistImage)))]
                && (ok <==> storeFailure.None?)
                && (ok ==> errorMessage == old(errorMessage))
                && (!ok ==> errorMessage == Some(CreateFailedPrefix + storeFailure.value))
    {
      if IsBlank(name) || IsBlank(description) || capacity <= 0 {
        errorMessage := Some(InvalidForm);
        return false;
      }
      isLoading := true;
      if !hasContext {
        errorMessage := Some(NoContext);
        ok := false;
      } else {
        var permanentImageUri := PersistedImage(tempImageUri, persistImage);
        var space := NewSpace(newId, name, description, capacity, permanentImageUri);
        ok := true;
        if storeAttached {
          forwarded := forwarded + [AddSpaceCall(space)];
          if storeFailure.Some? {
            errorMessage := Some(CreateFailedPrefix + storeFailure.value);
            ok := false;
          }
        }
      }
      isLoading := false;
    }

    /** `updateSpace` */
    method UpdateSpace(space: Space, name: string, description: string, capacity: int,
                       tempImageUri: Option<string>, persistImage: string -> Option<string>,
                       storeFailure: Option<string>)
      returns (ok: bool)
      modifies this`isLoading, this`errorMessage, this`forwarded
      ensures !FormIsValid(name, description, capacity) ==>
                && !ok && errorMessage == Some(InvalidForm)
                && isLoading == old(isLoading) && forwarded == old(forwarded)
      ensures FormIsValid(name, description, capacity) ==> !isLoading
      ensures FormIsValid(name, description, capacity) && !hasContext ==>
                !ok && errorMessage == Some(NoContext) && forwarded == old(forwarded)
      ensures FormIsValid(name, description, capacity) && hasContext && !storeAttached ==>
                ok && errorMessage == old(errorMessage) && forwarded == old(forwarded)
      ensures FormIsValid(name, description, capacity) && hasContext && storeAttached ==>
                && forwarded == old(forwarded) +
                     [UpdateSpaceCall(UpdatedSpace(space, name, description, capacity, tempImageUri, persistImage))]
                && (ok <==> storeFailure.None?)
                && (ok ==> errorMessage == old(errorMessage))
                && (!ok ==> errorMessage == Some(UpdateFailedPrefix + storeFailure.value))
    {
      if IsBlank(name) || IsBlank(description) || capacity <= 0 {
        errorMessage := Some(InvalidForm);
        return false;
      }
      isLoading := true;
      if !hasContext {
        errorMessage := Some(NoContext);
        ok := false;
      } else {
        var updatedSpace := UpdatedSpace(space, name, description, capacity, tempImageUri, persistImage);
        ok := true;
        if storeAttached {
          forwarded := forwarded + [UpdateSpaceCall(updatedSpace)];
          if storeFailure.Some? {
            errorMessage := Some(UpdateFailedPrefix + storeFailure.value);
            ok := false;
          }
        }
      }
      isLoading := false;
    }

    /** `deleteSpace`: no validation; forwards the id and succeeds unless the
        forwarded call throws. */
    method DeleteSpace(spaceId: string, storeFailure: Option<string>) returns (ok: bool)
      modifies this`isLoading, this`errorMessage, this`forwarded
      ensures !isLoading
      ensures forwarded == old(forwarded) + (if storeAttached then [DeleteSpaceCall(spaceId)] else [])
      ensures ok <==> !storeAttached || storeFailure.None?
      ensures ok ==> errorMessage == old(errorMessage)
      ensures !ok ==> errorMessage == Some(DeleteFailedPrefix + storeFailure.value)
    {
      isLoading := true;
      ok := true;
      if storeAttached {
        forwarded := forwarded + [DeleteSpaceCall(spaceId)];
        if storeFailure.Some? {
          errorMessage := Some(DeleteFailedPrefix + storeFailure.value);
          ok := false;
        }
      }
      isLoading := false;
    }

    /** `clearForm` */
    method ClearForm()
      modifies this`selectedSpace, this`errorMessage
      ensures selectedSpace == None && errorMessage == None
    {
      selectedSpace, errorMessage := None, None;
    }

    /** `clearErrorMessage` */
    method ClearErrorMessage()
      modifies this`errorMessage
      ensures errorMessage == None
    {
      errorMessage := None;
    }
  }
}
