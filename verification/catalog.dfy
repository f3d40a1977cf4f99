/** The repair services offered: create, list, update and delete over the
    service table. The list's searchable columns are defined in a constants
    file that is not part of this model, so they are a parameter here. */
module Catalog {
  import opened Common
  import opened Pagination
  import opened Query
  import opened Validation

  datatype Service = Service(id: string, name: string, description: string, image: string)

  type Services = map<string, Service>

  ghost predicate KeyedById(rows: Services) {
    forall id | id in rows :: rows[id].id == id
  }

  class ServiceTable {
    var rows: Services

    ghost predicate Valid()
      reads this
    {
      KeyedById(rows)
    }
  }

  /** `create({ data })`: the record is the payload itself under a new id. */
  ghost function CreateStep(rows: Services, data: ServiceCreateBody, freshId: string): (r: (Service, Services))
    requires freshId !in rows
    ensures r.0 == Service(freshId, data.name, data.description, data.image)
    ensures r.1 == rows[freshId := r.0] && |r.1| == |rows| + 1
    ensures KeyedById(rows) ==> KeyedById(r.1)
  {
    var s := Service(freshId, data.name, data.description, data.image);
    (s, rows[freshId := s])
  }

  method CreateService(services: ServiceTable, data: ServiceCreateBody, freshId: string) returns (result: Service)
    requires services.Valid() && freshId !in services.rows
    modifies services
    ensures services.Valid()
    ensures (result, services.rows) == CreateStep(old(services.rows), data, freshId)
  {
    result := Service(freshId, data.name, data.description, data.image);
    services.rows := services.rows[freshId := result];
  }

  /** The payload's fields over the stored ones; absent fields keep their value. */
  function ApplyPatch(s: Service, p: ServiceUpdateBody): (t: Service)
    ensures t.id == s.id
    ensures t.name == (if p.name.Some? then p.name.value else s.name)
    ensures t.description == (if p.description.Some? then p.description.value else s.description)
    ensures t.image == (if p.image.Some? then p.image.value else s.image)
  {
    Service(s.id,
            if p.name.Some? then p.name.value else s.name,
            if p.description.Some? then p.description.value else s.description,
            if p.image.Some? then p.image.value else s.image)
  }

  /** An empty patch changes nothing, and applying a patch twice is applying it once. */
  lemma ApplyPatchLaws(s: Service, p: ServiceUpdateBody)
    ensures ApplyPatch(s, ServiceUpdateBody(None, None, None)) == s
    ensures ApplyPatch(ApplyPatch(s, p), p) == ApplyPatch(s, p)
  {
  }

  ghost function UpdateStep(rows: Services, id: string, p: ServiceUpdateBody): (r: (Result<Service>, Services))
    ensures id !in rows ==> r == (Err(RecordNotFound), rows)
    ensures id in rows ==> r.0 == Ok(ApplyPatch(rows[id], p)) && r.1 == rows[id := ApplyPatch(rows[id], p)]
    ensures r.1.Keys == rows.Keys
    ensures forall other | other in rows && other != id :: r.1[other] == rows[other]
    ensures KeyedById(rows) ==> KeyedById(r.1)
  {
    if id !in rows then (Err(RecordNotFound), rows)
    else (Ok(ApplyPatch(rows[id], p)), rows[id := ApplyPatch(rows[id], p)])
  }

  method UpdateService(services: ServiceTable, id: string, p: ServiceUpdateBody) returns (result: Result<Service>)
    requires services.Valid()
    modifies services
    ensures services.Valid()
    ensures (result, services.rows) == UpdateStep(old(services.rows), id, p)
  {
    if id !in services.rows {
      return Err(RecordNotFound);
    }
    var updated := ApplyPatch(services.rows[id], p);
    services.rows := services.rows[id := updated];
    result := Ok(updated);
  }

  method DeleteService(services: ServiceTable, id: string) returns (result: Result<Service>)
    requires services.Valid()
    modifies services
    ensures services.Valid()
    ensures (result, services.rows) == DeleteRow(old(services.rows), id)
  {
    if id !in services.rows {
      return Err(RecordNotFound);
    }
    result := Ok(services.rows[id]);
    services.rows := services.rows - {id};
  }

  function ServiceRow(s: Service): Row {
    map["id" := s.id, "name" := s.name, "description" := s.description, "image" := s.image]
  }

  /** `getAllServices`: the where-builder, a page of the matches in the store's
      order, and `meta` with the page, the limit and the number of matches. */
  method GetAllServices(services: ServiceTable, ordered: seq<Service>, searchable: seq<string>,
                        searchTerm: Option<string>, filters: seq<(string, string)>, options: Options)
    returns (r: Result<Listing<Service>>)
    requires forall s :: s in ordered <==> s in services.rows.Values
    requires |ordered| == |services.rows|
    ensures r.Err? <==> CalculatePagination(options).skip < 0 || CalculatePagination(options).limit < 0
    ensures r.Ok? ==> r.value.meta == ListMeta(CalculatePagination(options).page, CalculatePagination(options).limit,
      |Select(ordered, ServiceRow, WhereFor(searchTerm, searchable, filters))|)
    ensures r.Ok? && !Truthy(searchTerm) && |filters| == 0 ==> r.value.meta.total == |services.rows|
    ensures r.Ok? ==> |r.value.data| <= r.value.meta.limit
    ensures r.Ok? ==> Page(Select(ordered, ServiceRow, WhereFor(searchTerm, searchable, filters)),
      CalculatePagination(options).skip, CalculatePagination(options).limit) == Ok(r.value.data)
    ensures r.Ok? ==> forall s | s in r.value.data ::
      s in services.rows.Values && Selected(searchTerm, searchable, filters, ServiceRow(s))
  {
    var w := CalculatePagination(options);
    var whereConditions := BuildWhere(searchTerm, searchable, filters);
    if !Truthy(searchTerm) && |filters| == 0 {
      SelectEmpty(ordered, ServiceRow);
    }
    r := FindMany(ordered, ServiceRow, whereConditions, w);
  }
}
