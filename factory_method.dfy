/**
 The two factory-method examples of creationalDesignPatterns/factory.py: vehicles and documents.

 Products and factories hold no state, so each is a datatype constructor; `client_code` returns
 the line it would print. factory.py defines `client_code` twice; each definition is its own
 function here.
 */
module FactoryMethod {

  // ------------------------------------------------------------------
  // Vehicles
  // ------------------------------------------------------------------

  datatype Vehicle = Car | Bike {
    /** `drive()`. */
    function Drive(): string
    {
      match this
      case Car => "Driving a car"
      case Bike => "Riding a bike"
    }
  }

  /** Different vehicles drive differently. */
  lemma DriveInjective(v: Vehicle, w: Vehicle)
    requires v.Drive() == w.Drive()
    ensures v == w
  {
  }

  datatype VehicleFactory = CarFactory | BikeFactory {
    /** `create_vehicle()`: a car from the car factory, a bike from the bike factory, on every call. */
    function CreateVehicle(): (v: Vehicle)
      ensures v.Car? <==> CarFactory?
    {
      if CarFactory? then Car else Bike
    }
  }

  /** The first `client_code(factory)`: the line of the created vehicle's `drive()`. */
  function VehicleClientCode(factory: VehicleFactory): string
  {
    factory.CreateVehicle().Drive()
  }

  /** What the vehicle client prints for each factory, and that it tells the factories apart. */
  lemma VehicleClientCodeEmits(factory: VehicleFactory)
    ensures VehicleClientCode(factory) == if factory.CarFactory? then "Driving a car" else "Riding a bike"
    ensures VehicleClientCode(factory) != VehicleClientCode(if factory.CarFactory? then BikeFactory else CarFactory)
  {
  }

  // ------------------------------------------------------------------
  // Documents
  // ------------------------------------------------------------------

  datatype Document = PdfDocument | WordDocument | ExcelDocument {
    /** `export()`. */
    function Export(): string
    {
      match this
      case PdfDocument => "Exporting PDF document"
      case WordDocument => "Exporting Word document"
      case ExcelDocument => "Exporting Excel document"
    }
  }

  /** Different documents export differently. */
  lemma ExportInjective(d: Document, e: Document)
    requires d.Export() == e.Export()
    ensures d == e
  {
  }

  datatype DocumentFactory = PdfDocumentFactory | WordDocumentFactory | ExcelDocumentFactory {
    /** `create_document()`: each factory's one document kind, on every call. */
    function CreateDocument(): (d: Document)
      ensures d.PdfDocument? <==> PdfDocumentFactory?
      ensures d.WordDocument? <==> WordDocumentFactory?
      ensures d.ExcelDocument? <==> ExcelDocumentFactory?
    {
      match this
      case PdfDocumentFactory => PdfDocument
      case WordDocumentFactory => WordDocument
      case ExcelDocumentFactory => ExcelDocument
    }
  }

  /** The second `client_code(factory)`: the line of the created document's `export()`. */
  function DocumentClientCode(factory: DocumentFactory): string
  {
    factory.CreateDocument().Export()
  }

  /** The document client prints a different line for every factory. */
  lemma DocumentClientCodeInjective(f: DocumentFactory, g: DocumentFactory)
    requires DocumentClientCode(f) == DocumentClientCode(g)
    ensures f == g
  {
  }

  /** What the document client prints for each factory. */
  lemma DocumentClientCodeEmits(factory: DocumentFactory)
    ensures DocumentClientCode(factory) ==
              match factory
              case PdfDocumentFactory => "Exporting PDF document"
              case WordDocumentFactory => "Exporting Word document"
              case ExcelDocumentFactory => "Exporting Excel document"
  {
  }
}
