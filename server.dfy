/** The `POST /add-car` handler of server.js (lines 59-86) over the record
    store of lines 33-44: an upload error or a missing field fails without
    touching the store; otherwise the stored list is read (an unreadable
    file reading as the empty list), one new record with a fresh id is
    appended, and the whole list is written back. */
module Server {

  import opened Wrappers
  import opened Records
  import opened Uploads

  /** The text fields of the multipart form; an absent field is `None`. */
  datatype Form = Form(
    make: Option<string>,
    model: Option<string>,
    year: Option<string>,
    price: Option<string>)

  /** What multer reports for the `carPhoto` field: an error, no file, or a
      file stored under the name made from the clock reading `timestamp`. */
  datatype Upload =
    | UploadFailed(message: string)
    | NoFile
    | Saved(timestamp: nat, originalName: string)

  datatype Request = Request(upload: Upload, body: Form)

  /** A 201 response carries the message and the new record; a failure its
      HTTP status and error text. */
  datatype Response =
    | Created(message: string, car: Car)
    | Failed(status: int, error: string)

  const CreatedMessage: string := "Car added successfully"
  const MissingFieldsError: string := "Missing required car details."
  const UploadErrorPrefix: string := "File upload error: "

  /** JavaScript truthiness of a form field: present and not empty. */
  predicate Truthy(field: Option<string>)
  {
    field.Some? && field.value != ""
  }

  predicate HasRequiredFields(body: Form)
  {
    Truthy(body.make) && Truthy(body.model) && Truthy(body.year) && Truthy(body.price)
  }

  /** The record the handler builds from the list it read. `parseInt` is
      JavaScript's integer parser, `None` standing for `NaN`. */
  function NewCar(cars: seq<Car>, req: Request, parseInt: string -> Option<int>): Car
    requires HasRequiredFields(req.body)
  {
    Car(
      Some(NextId(cars)),
      req.body.make.value,
      req.body.model.value,
      parseInt(req.body.year.value),
      parseInt(req.body.price.value),
      match req.upload
      case Saved(timestamp, originalName) => Some(ImageUrl(FileName(timestamp, originalName)))
      case _ => None)
  }

  /** The response to an add-car request when the store reads as `cars`. */
  function Handle(cars: seq<Car>, req: Request, parseInt: string -> Option<int>): Response
  {
    if req.upload.UploadFailed? then Failed(500, UploadErrorPrefix + req.upload.message)
    else if !HasRequiredFields(req.body) then Failed(400, MissingFieldsError)
    else Created(CreatedMessage, NewCar(cars, req, parseInt))
  }

  /** The list the store reads as after one add-car request: the records
      read keep their places, and one record is added exactly when the
      request succeeds. */
  function Step(cars: seq<Car>, req: Request, parseInt: string -> Option<int>): (after: seq<Car>)
    ensures |cars| <= |after| <= |cars| + 1 && after[..|cars|] == cars
    ensures |after| == |cars| + 1 <==> Handle(cars, req, parseInt).Created?
  {
    match Handle(cars, req, parseInt)
    case Created(_, car) => cars + [car]
    case Failed(_, _) => cars
  }

  /** The list after a series of add-car requests, handled one at a time.
      It only grows: the records read first keep their places, and no more
      records are added than there are requests. */
  function Run(cars: seq<Car>, reqs: seq<Request>, parseInt: string -> Option<int>): (after: seq<Car>)
    ensures |cars| <= |after| <= |cars| + |reqs| && after[..|cars|] == cars
    decreases |reqs|
  {
    if reqs == [] then cars
    else
      var next := Step(cars, reqs[0], parseInt);
      var after := Run(next, reqs[1..], parseInt);
      assert after[..|cars|] == after[..|next|][..|cars|];
      after
  }

  /** The JSON file `cars.json`, as the list it parses to, or `None` when it
      is missing or does not parse. */
  class CarStore {

    var stored: Option<seq<Car>>

    constructor (initial: Option<seq<Car>>)
      ensures stored == initial
    {
      stored := initial;
    }

    /** readCars: fail-soft, a file that cannot be read or parsed reads as
        the empty list. */
    function ReadCars(): seq<Car>
      reads this
    {
      match stored
      case Some(cars) => cars
      case None => []
    }

    /** writeCars: overwrites the whole file; reading it back gives the
        list written. */
    method WriteCars(cars: seq<Car>)
      modifies this
      ensures stored == Some(cars)
      ensures ReadCars() == cars
    {
      stored := Some(cars);
    }

    /** The add-car handler. It answers as `Handle` says; a failure leaves
        the file exactly as it was (an unreadable one stays unreadable), a
        success replaces it with the old list plus the new record. */
    method AddCar(req: Request, parseInt: string -> Option<int>) returns (res: Response)
      modifies this
      ensures res == Handle(old(ReadCars()), req, parseInt)
      ensures res.Failed? ==> stored == old(stored)
      ensures res.Created? ==> stored == Some(old(ReadCars()) + [res.car])
      ensures ReadCars() == Step(old(ReadCars()), req, parseInt)
    {
      if req.upload.UploadFailed? {
        return Failed(500, UploadErrorPrefix + req.upload.message);
      }
      var body := req.body;
      if !Truthy(body.make) || !Truthy(body.model) || !Truthy(body.year) || !Truthy(body.price) {
        return Failed(400, MissingFieldsError);
      }
      var cars := ReadCars();
      var car := NewCar(cars, req, parseInt);
      cars := cars + [car];
      WriteCars(cars);
      res := Created(CreatedMessage, car);
    }
  }

  /** A request fails exactly when the upload failed (500, with multer's
      message) or a required field is absent or empty (400). */
  lemma HandleFailsOnlyOnBadInput(cars: seq<Car>, req: Request, parseInt: string -> Option<int>)
    ensures Handle(cars, req, parseInt).Failed? <==> req.upload.UploadFailed? || !HasRequiredFields(req.body)
    ensures req.upload.UploadFailed? ==>
      Handle(cars, req, parseInt) == Failed(500, UploadErrorPrefix + req.upload.message)
    ensures !req.upload.UploadFailed? && !HasRequiredFields(req.body) ==>
      Handle(cars, req, parseInt) == Failed(400, MissingFieldsError)
  {
  }

  /** The record a successful request creates: an id no stored record has,
      larger than every stored id; make and model verbatim; year and price
      as parsed; a photo URL exactly when a file was uploaded, from which the
      clock reading and the original name can be read back. */
  lemma CreatedCar(cars: seq<Car>, req: Request, parseInt: string -> Option<int>)
    requires Handle(cars, req, parseInt).Created?
    ensures var car := Handle(cars, req, parseInt).car;
      && car.id.Some? && 1 <= car.id.value
      && (forall i :: 0 <= i < |cars| ==> IdOrZero(cars[i]) < car.id.value && cars[i].id != car.id)
      && Some(car.make) == req.body.make && Some(car.model) == req.body.model
      && car.year == parseInt(req.body.year.value) && car.price == parseInt(req.body.price.value)
      && (car.imageUrl.Some? <==> req.upload.Saved?)
      && (req.upload.Saved? ==>
            SplitImageUrl(car.imageUrl.value) == Some((req.upload.timestamp, req.upload.originalName)))
  {
    if req.upload.Saved? {
      ImageUrlRoundTrip(req.upload.timestamp, req.upload.originalName);
    }
  }

  /** An empty or unreadable store reads as the empty list, so the first
      car added to it becomes the only record and gets id 1. */
  lemma FirstCarGetsIdOne(s: CarStore, req: Request, parseInt: string -> Option<int>)
    requires s.stored == None || s.stored == Some([])
    ensures var res := Handle(s.ReadCars(), req, parseInt);
      res.Created? ==> Step(s.ReadCars(), req, parseInt) == [res.car] && res.car.id == Some(1)
  {
  }

  /** Ids of the records at positions `from` and later are larger than the
      ids of all records before them. */
  ghost predicate IdsIncreaseFrom(cars: seq<Car>, from: nat)
  {
    forall i, j :: 0 <= j < i < |cars| && from <= i ==> IdOrZero(cars[j]) < IdOrZero(cars[i])
  }

  /** Over any series of requests, the stored records keep their values and
      their order, and each record added gets an id larger than that of
      every record before it, so the added ids are strictly increasing and
      unique. */
  lemma {:induction false} RunAppendsFreshIds(cars: seq<Car>, reqs: seq<Request>, parseInt: string -> Option<int>)
    ensures var after := Run(cars, reqs, parseInt);
      |cars| <= |after| && after[..|cars|] == cars && IdsIncreaseFrom(after, |cars|)
    decreases |reqs|
  {
    if reqs != [] {
      var next := Step(cars, reqs[0], parseInt);
      RunAppendsFreshIds(next, reqs[1..], parseInt);
      var after := Run(next, reqs[1..], parseInt);
      assert after[..|next|] == next;
      if Handle(cars, reqs[0], parseInt).Created? {
        var car := Handle(cars, reqs[0], parseInt).car;
        CreatedCar(cars, reqs[0], parseInt);
        assert after[|cars|] == car;
        assert forall j :: 0 <= j < |cars| ==> after[j] == cars[j];
        assert after[..|cars|] == next[..|cars|];
      }
    }
  }

  /** The records carry the ids 1, 2, 3, ... in order. */
  ghost predicate NumberedFromOne(cars: seq<Car>)
  {
    forall i :: 0 <= i < |cars| ==> cars[i].id == Some(i + 1)
  }

  lemma {:induction false} StepKeepsNumbering(cars: seq<Car>, req: Request, parseInt: string -> Option<int>)
    requires NumberedFromOne(cars)
    ensures NumberedFromOne(Step(cars, req, parseInt))
  {
    if cars != [] {
      assert IdOrZero(cars[|cars| - 1]) == |cars|;
    }
    var n := NextId(cars);
    assert forall i :: 0 <= i < |cars| ==> IdOrZero(cars[i]) == i + 1;
    assert n == |cars| + 1;
  }

  /** A store numbered 1, 2, ..., n stays so numbered over any series of
      requests: successful adds get ids n + 1, n + 2, ... in the order they
      are handled, and failed requests use up no id. */
  lemma {:induction false} RunKeepsNumbering(cars: seq<Car>, reqs: seq<Request>, parseInt: string -> Option<int>)
    requires NumberedFromOne(cars)
    ensures NumberedFromOne(Run(cars, reqs, parseInt))
    decreases |reqs|
  {
    if reqs != [] {
      StepKeepsNumbering(cars, reqs[0], parseInt);
      RunKeepsNumbering(Step(cars, reqs[0], parseInt), reqs[1..], parseInt);
    }
  }

  /** Starting from an empty or unreadable store, the records added carry
      the ids 1, 2, 3, ... in the order they were added. */
  lemma IdsFromEmptyStore(reqs: seq<Request>, parseInt: string -> Option<int>)
    ensures var after := Run([], reqs, parseInt);
      forall i :: 0 <= i < |after| ==> after[i].id == Some(i + 1)
  {
    RunKeepsNumbering([], reqs, parseInt);
  }

  /** A Toyota Corolla of 2020 at 20000, without a photo, posted to an empty
      store, is created with id 1 and no image URL. */
  lemma ToyotaScenario(parseInt: string -> Option<int>)
    requires parseInt("2020") == Some(2020) && parseInt("20000") == Some(20000)
    ensures Handle([], Request(NoFile, Form(Some("Toyota"), Some("Corolla"), Some("2020"), Some("20000"))), parseInt)
      == Created(CreatedMessage, Car(Some(1), "Toyota", "Corolla", Some(2020), Some(20000), None))
  {
  }
}
