/**
 * The module's configured entity managers (`_getEntityManager`) and the
 * part of an entity manager the association query builder consults: the
 * class metadata of an entity and its association mappings.
 */
module EntityManagers {

  datatype Option<+T> = None | Some(value: T)

  /** The entity class name passed to `getClassMetadata`; `NullEntity`
      stands for PHP `null`. */
  datatype EntityRef = NullEntity | Entity(name: string)

  /** Class metadata as far as the builder reads it: `associationMappings`,
      either not set or a map from association field name to the name of
      its target entity. */
  datatype ClassMetadata = ClassMetadata(associationMappings: Option<map<string, string>>)

  /** An entity manager, as far as the builder uses it: the class metadata
      it knows, by entity class name. */
  datatype Manager = Manager(classes: map<EntityRef, ClassMetadata>)

  /** The exceptions that end a build. */
  datatype Error =
    | InvalidEntityManager(connection: string)  // the ModuleException of `_getEntityManager`
    | ManagerNotRetrieved(connection: string)   // a configured name with no manager stored yet
    | UnknownEntityMetadata(entity: EntityRef)   // `getClassMetadata` fails

  datatype Result<+T> = Success(value: T) | Failure(error: Error)

  /** The module's state that `_getEntityManager` reads: the configured
      `entity_managers` names and the managers retrieved so far (`$this->ems`). */
  datatype Settings = Settings(entityManagers: seq<string>, ems: map<string, Manager>)

  const DefaultConnection := "default"

  /** PHP truthiness of a string: only `""` and `"0"` are false. */
  predicate Truthy(s: string)
  {
    s != "" && s != "0"
  }

  /** `$connection ? $connection : 'default'` */
  function EffectiveConnection(connection: string): (name: string)
    ensures Truthy(name)
    ensures name == connection <==> Truthy(connection)
    ensures name != connection ==> name == DefaultConnection
  {
    if Truthy(connection) then connection else DefaultConnection
  }

  /** `_getEntityManager`: defaults the connection name, refuses a name that
      is not configured, and otherwise returns what `$this->ems` holds under
      that name (`None` where PHP reads `null` from a missing key). */
  function GetEntityManager(settings: Settings, connection: string): (r: Result<Option<Manager>>)
    ensures r.Failure? <==> EffectiveConnection(connection) !in settings.entityManagers
    ensures r.Failure? ==> r.error == InvalidEntityManager(EffectiveConnection(connection))
    ensures r.Success? ==> (r.value.Some? <==> EffectiveConnection(connection) in settings.ems)
    ensures r.Success? && r.value.Some? ==> r.value.value == settings.ems[EffectiveConnection(connection)]
  {
    var name := EffectiveConnection(connection);
    if name !in settings.entityManagers then Failure(InvalidEntityManager(name))
    else if name in settings.ems then Success(Some(settings.ems[name]))
    else Success(None)
  }

  /** Every configured name has a manager: the state after the managers were
      retrieved from the container. */
  ghost predicate Retrieved(settings: Settings)
  {
    forall name :: name in settings.entityManagers ==> name in settings.ems
  }

  /** Once the managers are retrieved, a configured name always yields its manager. */
  lemma RetrievedNamesYieldManagers(settings: Settings, connection: string)
    requires Retrieved(settings)
    requires EffectiveConnection(connection) in settings.entityManagers
    ensures GetEntityManager(settings, connection) == Success(Some(settings.ems[EffectiveConnection(connection)]))
  {
  }

  /** Defaulting is idempotent: asking again with the defaulted name gives the same answer. */
  lemma DefaultingIsIdempotent(settings: Settings, connection: string)
    ensures GetEntityManager(settings, EffectiveConnection(connection)) == GetEntityManager(settings, connection)
  {
  }

  /** With the default configuration (`entity_managers: ['default']`) exactly
      `""`, `"0"` and `"default"` are accepted. */
  lemma DefaultConfigurationAccepts(ems: map<string, Manager>, connection: string)
    ensures GetEntityManager(Settings([DefaultConnection], ems), connection).Success?
        <==> (connection == "" || connection == "0" || connection == DefaultConnection)
  {
  }

  /** `getClassMetadata($entity)`, the ORM's lookup the builder relies on. */
  function ClassMetadataFor(em: Manager, entity: EntityRef): (r: Result<ClassMetadata>)
    ensures r.Success? <==> entity in em.classes
    ensures r.Success? ==> r.value == em.classes[entity]
    ensures r.Failure? ==> r.error == UnknownEntityMetadata(entity)
  {
    if entity in em.classes then Success(em.classes[entity]) else Failure(UnknownEntityMetadata(entity))
  }

  /** `isset($data->associationMappings) && array_key_exists($key, $data->associationMappings)` */
  predicate IsAssociation(md: ClassMetadata, key: string)
  {
    md.associationMappings.Some? && key in md.associationMappings.value
  }
}
