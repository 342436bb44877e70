/**
  `RegisteringABC`: one table, shared by every subclass, from a string
  identifier to an implementation class. `register_implementation` stores the
  class it is called on under the identifier; `create_instance` makes a new
  object of the class stored under an identifier, whichever subclass it is
  called through, and raises `ValueError` for an identifier nobody registered.
*/
module RegisteringAbc {
  import opened Wrappers
  import opened Python

  /** The implementation classes the packages register. */
  datatype ImplClass =
    | SitemapParserOpenAgrar
    | SitemapParserPublisso
    | SitemapParserThunenAtlas
    | SitemapParserXml
    | MetadataExtractorEmbeddedJsonld
    | MetadataExtractorJsonld

  /** The abstract classes a call can go through: the root and its two direct subclasses. */
  datatype Family = RegisteringABC | SitemapParser | MetadataExtractor

  function FamilyOf(c: ImplClass): (f: Family)
    ensures f != RegisteringABC
  {
    match c
    case SitemapParserOpenAgrar | SitemapParserPublisso | SitemapParserThunenAtlas | SitemapParserXml => SitemapParser
    case MetadataExtractorEmbeddedJsonld | MetadataExtractorJsonld => MetadataExtractor
  }

  /** An object `create_instance` made. */
  class Instance {
    const cls: ImplClass

    constructor(c: ImplClass)
      ensures cls == c
    {
      cls := c;
    }
  }

  function NotRegistered(identifier: string): PyError {
    PyError(ValueError, "No implementation registered for identifier '" + identifier + "'")
  }

  /**
    The class `create_instance` instantiates for an identifier: the one the
    table holds, or `ValueError` when it holds none.
  */
  function ClassFor(implementations: map<string, ImplClass>, identifier: string): (r: Result<ImplClass, PyError>)
    ensures r.Ok? <==> identifier in implementations
    ensures r.Ok? ==> r.value == implementations[identifier]
    ensures r.Err? ==> r.error == NotRegistered(identifier) && r.error.cls == ValueError
  {
    if identifier in implementations then Ok(implementations[identifier]) else Err(NotRegistered(identifier))
  }

  /** `RegisteringABC._implementations`, with the two class methods that use it. */
  class Registry {
    var implementations: map<string, ImplClass>

    /** The table before any module registers anything. */
    constructor()
      ensures implementations == map[]
    {
      implementations := map[];
    }

    /** `cls.register_implementation(identifier)`: the identifier now names `cls`; every other entry is kept. */
    method RegisterImplementation(cls: ImplClass, identifier: string)
      modifies this
      ensures implementations == old(implementations)[identifier := cls]
      ensures identifier in implementations && implementations[identifier] == cls
      ensures forall other | other != identifier ::
        (other in implementations <==> other in old(implementations))
        && (other in implementations ==> implementations[other] == old(implementations)[other])
    {
      implementations := implementations[identifier := cls];
    }

    /**
      `caller.create_instance(identifier)`: a new object of the registered
      class, or `ValueError`. The caller does not take part: the table is shared.
    */
    method CreateInstance(caller: Family, identifier: string) returns (r: Result<Instance, PyError>)
      ensures identifier in implementations ==> r.Ok? && fresh(r.value) && r.value.cls == implementations[identifier]
      ensures identifier !in implementations ==> r == Err(NotRegistered(identifier))
      ensures r.Ok? <==> ClassFor(implementations, identifier).Ok?
      ensures r.Ok? ==> r.value.cls == ClassFor(implementations, identifier).value
    {
      if identifier in implementations {
        var instance := new Instance(implementations[identifier]);
        r := Ok(instance);
      } else {
        r := Err(NotRegistered(identifier));
      }
    }

    /**
      What importing the two packages registers: the four sitemap parsers,
      then the two metadata extractors, all in the one table.
    */
    method RegisterPackageImplementations()
      modifies this
      ensures implementations == old(implementations) + PackageTable()
    {
      ghost var before := implementations;
      RegisterImplementation(SitemapParserOpenAgrar, "openagrar");
      RegisterImplementation(SitemapParserPublisso, "publisso");
      RegisterImplementation(SitemapParserThunenAtlas, "thunen_atlas");
      RegisterImplementation(SitemapParserXml, "xml");
      RegisterImplementation(MetadataExtractorEmbeddedJsonld, "embedded_jsonld");
      RegisterImplementation(MetadataExtractorJsonld, "jsonld");
      PackageUpdates(before);
    }
  }

  /** The identifiers the packages register and their classes. */
  function PackageTable(): map<string, ImplClass> {
    map["openagrar" := SitemapParserOpenAgrar, "publisso" := SitemapParserPublisso,
        "thunen_atlas" := SitemapParserThunenAtlas, "xml" := SitemapParserXml,
        "embedded_jsonld" := MetadataExtractorEmbeddedJsonld, "jsonld" := MetadataExtractorJsonld]
  }

  /** Registering the package classes one by one adds the package table. */
  lemma PackageUpdates(m: map<string, ImplClass>)
    ensures m["openagrar" := SitemapParserOpenAgrar]["publisso" := SitemapParserPublisso]
             ["thunen_atlas" := SitemapParserThunenAtlas]["xml" := SitemapParserXml]
             ["embedded_jsonld" := MetadataExtractorEmbeddedJsonld]["jsonld" := MetadataExtractorJsonld]
         == m + PackageTable()
  {
  }

  /** Every class the packages register is found under exactly one identifier. */
  lemma PackageTableInjective(a: string, b: string)
    requires a in PackageTable() && b in PackageTable() && PackageTable()[a] == PackageTable()[b]
    ensures a == b
  {
  }

  /**
    Re-registering an identifier replaces the class, and a class registered
    through one family is what `create_instance` returns through the other
    one: the last registration wins across the shared table.
  */
  method LastRegistrationWins(registry: Registry, identifier: string, first: ImplClass, second: ImplClass)
    returns (created: Result<Instance, PyError>)
    modifies registry
    ensures created.Ok? && created.value.cls == second
  {
    registry.RegisterImplementation(first, identifier);
    registry.RegisterImplementation(second, identifier);
    var through := if FamilyOf(first) == SitemapParser then MetadataExtractor else SitemapParser;
    created := registry.CreateInstance(through, identifier);
  }

  /** Two `create_instance` calls for the same identifier give two different objects of the same class. */
  method TwoInstancesAreDistinct(registry: Registry, identifier: string)
    returns (a: Instance, b: Instance)
    requires identifier in registry.implementations
    ensures a != b && a.cls == b.cls == registry.implementations[identifier]
  {
    var ra := registry.CreateInstance(RegisteringABC, identifier);
    var rb := registry.CreateInstance(RegisteringABC, identifier);
    a, b := ra.value, rb.value;
  }
}
