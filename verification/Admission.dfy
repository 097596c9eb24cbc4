/** The two admission webhooks for cluster objects. */
module Admission {
  import opened Paths
  import opened Statuses

  datatype Cluster = Cluster(key: Key, token: string)

  /** An object as it arrives: it may not decode. */
  datatype Request = Malformed(text: string) | Object(cluster: Cluster)

  datatype Response =
    | Errored(code: int, text: string)
    | Patched(cluster: Cluster)
    | Denied(reasons: seq<string>)
    | Allowed

  datatype Marshal = Marshals | MarshalFails(text: string)

  /** The text of a UUID. */
  predicate Uuid(s: string) {
    |s| == 36
  }

  /** `Mutator.Handle`.  Every object that decodes goes through, with a token:
      its own if it has one, or else the new one; nothing else of it changes. */
  method Mutate(req: Request, uuid: string, marshal: Marshal) returns (r: Response)
    requires Uuid(uuid)
    ensures r.Patched? <==> req.Object? && marshal.Marshals?
    ensures r.Patched? ==>
      && r.cluster.key == req.cluster.key && r.cluster.token != ""
      && (req.cluster.token != "" ==> r.cluster == req.cluster)
      && (req.cluster.token == "" ==> r.cluster.token == uuid)
    ensures req.Malformed? ==> r == Errored(400, req.text)
    ensures req.Object? && marshal.MarshalFails? ==> r == Errored(500, marshal.text)
  {
    if req.Malformed? {
      return Errored(BAD_REQUEST, req.text);
    }
    var cluster := req.cluster;
    if cluster.token == "" {
      cluster := cluster.(token := uuid);
    }
    if marshal.MarshalFails? {
      return Errored(INTERNAL_ERROR, marshal.text);
    }
    return Patched(cluster);
  }

  /** `Validator.Handle`.  It allows exactly the objects that have a token. */
  method Validate(req: Request) returns (r: Response)
    ensures r.Allowed? <==> req.Object? && req.cluster.token != ""
    ensures r.Errored? <==> req.Malformed?
    ensures r.Errored? ==> r == Errored(400, req.text)
    ensures !r.Allowed? && !r.Errored? ==> r == Denied(["token"])
  {
    if req.Malformed? {
      return Errored(BAD_REQUEST, req.text);
    }
    var errs := [];
    if req.cluster.token == "" {
      errs := errs + ["token"];
    }
    if |errs| > 0 {
      return Denied(errs);
    }
    return Allowed;
  }

  datatype Admitted = Rejected | Stored(cluster: Cluster)

  /** What a create or an update comes to. */
  function Admit(req: Request, uuid: string, marshal: Marshal): Admitted {
    if req.Malformed? || marshal.MarshalFails? then Rejected
    else Stored(Cluster(req.cluster.key, if req.cluster.token == "" then uuid else req.cluster.token))
  }

  /** A create or an update: mutated, then validated, then stored; a webhook that
      does not let the object through stops it.  The validator never does, and what
      is stored passes both webhooks unchanged when it is written again. */
  method Store(req: Request, uuid: string, marshal: Marshal) returns (r: Admitted)
    requires Uuid(uuid)
    ensures r == Admit(req, uuid, marshal)
    ensures r.Stored? <==> req.Object? && marshal.Marshals?
    ensures r.Stored? ==> r.cluster.token != "" && r.cluster.key == req.cluster.key
    ensures r.Stored? && req.cluster.token != "" ==> r.cluster == req.cluster
    ensures r.Stored? && req.cluster.token == "" ==> r.cluster.token == uuid
    ensures r.Stored? ==> forall again | Uuid(again) :: Admit(Object(r.cluster), again, Marshals) == r
  {
    var mutated := Mutate(req, uuid, marshal);
    if !mutated.Patched? {
      return Rejected;
    }
    var verdict := Validate(Object(mutated.cluster));
    if !verdict.Allowed? {
      return Rejected;
    }
    return Stored(mutated.cluster);
  }

  /** What is stored of an object: the one that was written, with the new UUID for
      its token if it came without one.  Nothing else is, so no stored cluster is
      without a token. */
  lemma {:induction false} StoredExactly(req: Request, uuid: string, marshal: Marshal, cluster: Cluster)
    requires Uuid(uuid)
    ensures Admit(req, uuid, marshal) == Stored(cluster) <==>
      && marshal.Marshals? && cluster.token != ""
      && (req == Object(cluster) || (req == Object(cluster.(token := "")) && cluster.token == uuid))
  {
    assert uuid != "";
  }
}
