/** Entities of the photo booth (the records and enums of src/types/index.ts).
    Date fields are millisecond timestamps (`int`); JavaScript numbers used as
    counts are `int`. */
module Types {

  datatype Option<T> = None | Some(value: T)

  /** A value of a payload the source types as `any`: numbers are
      integers, objects are known only by identity. */
  datatype JsValue = Undefined | Null | Bool(b: bool) | Num(n: int) | Str(s: string) | Obj(ref: string)

  /** JavaScript truthiness, as `||` and `if` test it. */
  predicate Truthy(v: JsValue) {
    match v
    case Undefined => false
    case Null => false
    case Bool(b) => b
    case Num(n) => n != 0
    case Str(s) => s != ""
    case Obj(_) => true
  }

  /** A point in time, in milliseconds. */
  type Timestamp = int

  // ---------------------------------------------------------------- users

  datatype UserRole = Admin | Operator | RegularUser
  datatype Language = Ko | En
  datatype ThemeMode = Light | Dark

  datatype UserPreferences = UserPreferences(language: Language, theme: ThemeMode, notifications: bool)

  datatype User = User(
    id: string,
    createdAt: Timestamp,
    updatedAt: Timestamp,
    name: string,
    email: string,
    role: UserRole,
    profileImage: Option<string>,
    preferences: UserPreferences)

  // ---------------------------------------------------------------- photos

  datatype PhotoStatus = Captured | Editing | ReadyToPrint | Printing | Printed | Error

  /** The string value of each PhotoStatus member. */
  function PhotoStatusName(s: PhotoStatus): string {
    match s
    case Captured => "captured"
    case Editing => "editing"
    case ReadyToPrint => "ready_to_print"
    case Printing => "printing"
    case Printed => "printed"
    case Error => "error"
  }

  datatype ImageFormat = Jpeg | Png
  datatype GeoLocation = GeoLocation(latitude: real, longitude: real)

  datatype PhotoMetadata = PhotoMetadata(
    width: int,
    height: int,
    fileSize: int,
    format: ImageFormat,
    location: Option<GeoLocation>,
    tags: seq<string>)

  datatype PaperSize = FourBySix | FiveBySeven | SixByEight
  datatype PrintQuality = Draft | Normal | High | Premium
  datatype PrintLayout = Grid2x2 | Grid3x3 | Strip4

  function PaperSizeName(p: PaperSize): string {
    match p
    case FourBySix => "4x6"
    case FiveBySeven => "5x7"
    case SixByEight => "6x8"
  }

  function PrintQualityName(q: PrintQuality): string {
    match q
    case Draft => "draft"
    case Normal => "normal"
    case High => "high"
    case Premium => "premium"
  }

  datatype PrintSettings = PrintSettings(
    paperSize: PaperSize,
    quality: PrintQuality,
    copies: int,
    layout: PrintLayout,
    border: bool)

  datatype Photo = Photo(
    id: string,
    createdAt: Timestamp,
    updatedAt: Timestamp,
    userId: string,
    frameId: string,
    imageUrls: seq<string>,
    thumbnailUrl: string,
    status: PhotoStatus,
    printSettings: PrintSettings,
    metadata: PhotoMetadata)

  // ---------------------------------------------------------------- frames

  datatype FrameCategory = Seasonal | EventCategory | Special | Basic
  datatype Season = Spring | Summer | Autumn | Winter
  datatype HubEvent = Christmas | Easter | Thanksgiving | Baptism | Wedding | BibleStudy | YouthGroup

  function FrameCategoryName(c: FrameCategory): string {
    match c
    case Seasonal => "seasonal"
    case EventCategory => "event"
    case Special => "special"
    case Basic => "basic"
  }

  function SeasonName(s: Season): string {
    match s
    case Spring => "spring"
    case Summer => "summer"
    case Autumn => "autumn"
    case Winter => "winter"
  }

  function HubEventName(e: HubEvent): string {
    match e
    case Christmas => "christmas"
    case Easter => "easter"
    case Thanksgiving => "thanksgiving"
    case Baptism => "baptism"
    case Wedding => "wedding"
    case BibleStudy => "bible_study"
    case YouthGroup => "youth_group"
  }

  datatype Frame = Frame(
    id: string,
    createdAt: Timestamp,
    updatedAt: Timestamp,
    name: string,
    description: string,
    category: FrameCategory,
    season: Option<Season>,
    event: Option<HubEvent>,
    imageUrl: string,
    thumbnailUrl: string,
    isActive: bool,
    sortOrder: int)

  // ---------------------------------------------------------------- printers

  datatype PrinterStatus = Online | Offline | Busy | PrinterError | Maintenance

  datatype PrintJobStatus = Queued | Processing | PrintingJob | Completed | Failed | Cancelled

  datatype PrintJob = PrintJob(
    id: string,
    createdAt: Timestamp,
    updatedAt: Timestamp,
    photoId: string,
    userId: string,
    status: PrintJobStatus,
    priority: int,
    estimatedTime: int,
    errorMessage: Option<string>)

  datatype PrinterSettings = PrinterSettings(
    defaultPaperSize: PaperSize,
    defaultQuality: PrintQuality,
    autoCut: bool,
    autoEject: bool,
    maxCopies: int)

  datatype Printer = Printer(
    id: string,
    createdAt: Timestamp,
    updatedAt: Timestamp,
    name: string,
    model: string,
    ipAddress: string,
    port: int,
    status: PrinterStatus,
    currentJob: Option<PrintJob>,
    queue: seq<PrintJob>,
    settings: PrinterSettings)

  /** The two sort directions shared by the photo and frame slices. */
  datatype SortDirection = Asc | Desc
}
