/** `DependencyContainer`: services kept by the name of their type
    (`"\(type)"`), registered last-write-wins and resolved with `as? T`.

    The container is generic in what it stores (`Any` in the source); the
    dynamic cast `as? T` is a parameter `cast`, which gives the stored value
    as a `T` or nothing. */
module DependencyContainer {
  import opened Wrappers

  datatype Container<V> = Container(services: map<string, V>)

  /** A new container holds nothing. */
  function Empty<V>(): (r: Container<V>)
    ensures r.services == map[]
  {
    Container(map[])
  }

  /** `register(_:service:)`: stores the service under the type's name,
      replacing whatever was there, and touches no other name. */
  function Register<V>(c: Container<V>, typeName: string, service: V): (r: Container<V>)
    ensures r.services.Keys == c.services.Keys + {typeName}
    ensures r.services[typeName] == service
    ensures forall k :: k in c.services && k != typeName ==> r.services[k] == c.services[k]
  {
    Container(c.services[typeName := service])
  }

  /** `register(_:service:)` with a closure: the closure is called once, at
      registration, and its result is stored. */
  function RegisterFactory<V>(c: Container<V>, typeName: string, service: () -> V): (r: Container<V>)
    ensures r.services.Keys == c.services.Keys + {typeName}
    ensures r.services[typeName] == service()
    ensures forall k :: k in c.services && k != typeName ==> r.services[k] == c.services[k]
  {
    Container(c.services[typeName := service()])
  }

  /** `resolve(_:)`: nothing under an unknown name; otherwise whatever the
      cast makes of the stored value. */
  function Resolve<V, T>(c: Container<V>, typeName: string, cast: V -> Option<T>): (r: Option<T>)
    ensures typeName !in c.services ==> r == None
    ensures typeName in c.services ==> r == cast(c.services[typeName])
  {
    if typeName in c.services then cast(c.services[typeName]) else None
  }

  /** A registered service is resolved back under its name, as long as the
      cast accepts it. */
  lemma ResolveAfterRegister<V, T>(c: Container<V>, typeName: string, service: V, cast: V -> Option<T>)
    ensures Resolve(Register(c, typeName, service), typeName, cast) == cast(service)
  {
  }

  /** Nothing is resolved from an empty container. */
  lemma ResolveEmpty<V, T>(typeName: string, cast: V -> Option<T>)
    ensures Resolve(Empty<V>(), typeName, cast) == None
  {
  }

  /** Registering under one name does not change what another name resolves to. */
  lemma RegisterIsLocal<V, T>(c: Container<V>, typeName: string, other: string, service: V, cast: V -> Option<T>)
    requires other != typeName
    ensures Resolve(Register(c, typeName, service), other, cast) == Resolve(c, other, cast)
  {
  }

  /** The later of two registrations under one name wins. */
  lemma RegisterLastWins<V>(c: Container<V>, typeName: string, first: V, second: V)
    ensures Register(Register(c, typeName, first), typeName, second) == Register(c, typeName, second)
  {
  }

  /** Registrations under different names can happen in either order. */
  lemma RegistrationsCommute<V>(c: Container<V>, a: string, b: string, sa: V, sb: V)
    requires a != b
    ensures Register(Register(c, a, sa), b, sb) == Register(Register(c, b, sb), a, sa)
  {
  }

  /** Registering with a closure is registering its result. */
  lemma FactoryIsEager<V>(c: Container<V>, typeName: string, service: () -> V)
    ensures RegisterFactory(c, typeName, service) == Register(c, typeName, service())
  {
  }
}
