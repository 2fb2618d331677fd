/** The producer store the handlers call through `Producer::find_by_email`,
    `Producer::authenticate` and `Producer::create`. Their bodies live in
    backend/src/models/producer.rs, which is not part of this model: here they are
    operations over a map from email to producer, and password checking is an abstract
    predicate. */
module Store {
  import opened Prelude
  import opened Uuids
  import opened Errors
  import opened Common

  /** The behaviour of `Producer::authenticate` left abstract: whether a password
      matches a stored producer, and the error it reports for an unknown email and for
      a wrong password. */
  datatype Verifier = Verifier(
    matches: (Producer, string) -> bool,
    unknownEmail: AppError,
    wrongPassword: AppError)

  /** Every producer is filed under its own email. */
  ghost predicate Keyed(producers: map<string, Producer>) {
    forall e :: e in producers ==> producers[e].email == e
  }

  /** `Producer::find_by_email`: a miss is diesel's NotFound. */
  function FindByEmail(producers: map<string, Producer>, email: string): (r: Result<Producer, AppError>)
    ensures r.Ok? <==> email in producers
    ensures r.Ok? ==> r.value == producers[email]
  {
    if email in producers then Ok(producers[email]) else Err(FromDiesel(DieselNotFound))
  }

  /** `Producer::authenticate` */
  function Authenticate(producers: map<string, Producer>, email: string, password: string,
                        verifier: Verifier): (r: Result<Producer, AppError>)
    ensures r.Ok? <==> email in producers && verifier.matches(producers[email], password)
    ensures r.Ok? ==> r.value == producers[email]
    ensures email !in producers ==> r == Err(verifier.unknownEmail)
    ensures email in producers && !verifier.matches(producers[email], password) ==> r == Err(verifier.wrongPassword)
  {
    if email !in producers then Err(verifier.unknownEmail)
    else if verifier.matches(producers[email], password) then Ok(producers[email])
    else Err(verifier.wrongPassword)
  }

  /** The record `Producer::create` inserts for a registration, with id `id`: active,
      email not verified, and Spanish when no language preference is given. */
  function NewProducer(request: RegisterProducerRequest, id: Uuid): (p: Producer)
    ensures p.id == id && p.email == request.email && p.isActive && !p.emailVerified
  {
    Producer(id, request.fullName, request.email, request.farmName, request.phone,
             request.languagePreference.UnwrapOr(Default()), true, false)
  }

  /** `Producer::create` on a map: the returned producer and the store afterwards. A
      database failure inserts nothing. */
  function Created(producers: map<string, Producer>, request: RegisterProducerRequest, id: Uuid,
                   failure: Option<DieselError>): (r: (Result<Producer, AppError>, map<string, Producer>))
    ensures Keyed(producers) ==> Keyed(r.1)
    ensures r.0.Ok? <==> failure.None?
    ensures r.0.Ok? ==> r.0.value == NewProducer(request, id) && r.1 == producers[request.email := r.0.value]
    ensures r.0.Err? ==> r.1 == producers
  {
    match failure
    case Some(e) => (Err(FromDiesel(e)), producers)
    case None =>
      var p := NewProducer(request, id);
      (Ok(p), producers[request.email := p])
  }

  class ProducerStore {
    var producers: map<string, Producer>

    ghost predicate Valid()
      reads this
    {
      Keyed(producers)
    }

    constructor ()
      ensures Valid() && producers == map[]
    {
      producers := map[];
    }

    /** `Producer::create`; `id` is the fresh UUID the database assigns and `failure`
        the diesel error the insert may raise. */
    method Create(request: RegisterProducerRequest, id: Uuid, failure: Option<DieselError>)
      returns (r: Result<Producer, AppError>)
      requires Valid()
      modifies this
      ensures Valid()
      ensures (r, producers) == Created(old(producers), request, id, failure)
    {
      if failure.Some? {
        r := Err(FromDiesel(failure.value));
      } else {
        var p := NewProducer(request, id);
        producers := producers[request.email := p];
        r := Ok(p);
      }
    }
  }
}
