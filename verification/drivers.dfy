/**
 * Driver onboarding in the drivers service: phone normalisation, the registration that creates
 * or updates the user, the driver profile and the submitted documents, the online-status
 * update, and the document upload that replaces a document of the same type.
 */
module Drivers {
  import opened Wrappers
  import opened Text
  import opened Users

  // ---------------------------------------------------------------------------
  // Phone numbers

  /** Lines 151-160: keep the digits; drop a `91` country code from a 12-digit number;
      keep a 10-digit number; otherwise keep the last ten digits. */
  function NormalizePhoneNumber(phoneNumber: string): (r: string)
    ensures forall i :: 0 <= i < |r| ==> IsDigit(r[i])
    ensures |r| == if |Digits(phoneNumber)| < 10 then |Digits(phoneNumber)| else 10
  {
    var digitsOnly := Digits(phoneNumber);
    if |digitsOnly| >= 2 && digitsOnly[..2] == "91" && |digitsOnly| == 12 then digitsOnly[2..]
    else if |digitsOnly| == 10 then digitsOnly
    else LastN(digitsOnly, 10)
  }

  /** Whichever branch is taken, the result is the last ten digits (all of them if fewer). */
  lemma NormalizeIsLastTenDigits(phoneNumber: string)
    ensures NormalizePhoneNumber(phoneNumber) == LastN(Digits(phoneNumber), 10)
  {
    var d := Digits(phoneNumber);
    if |d| >= 2 && d[..2] == "91" && |d| == 12 {
      assert d[2..] == d[|d| - 10..];
    }
  }

  /** The three cases of the source, stated on the digits of the input. */
  lemma NormalizePhoneCases(phoneNumber: string)
    ensures var d := Digits(phoneNumber);
      (|d| == 12 && d[..2] == "91" ==> NormalizePhoneNumber(phoneNumber) == d[2..]) &&
      (|d| == 10 ==> NormalizePhoneNumber(phoneNumber) == d) &&
      (|d| < 10 ==> NormalizePhoneNumber(phoneNumber) == d) &&
      (|d| > 10 ==> NormalizePhoneNumber(phoneNumber) == d[|d| - 10..])
  {
    NormalizeIsLastTenDigits(phoneNumber);
  }

  /** Normalising a normalised number changes nothing. */
  lemma NormalizePhoneIdempotent(phoneNumber: string)
    ensures NormalizePhoneNumber(NormalizePhoneNumber(phoneNumber)) == NormalizePhoneNumber(phoneNumber)
  {
    var once := NormalizePhoneNumber(phoneNumber);
    NormalizeIsLastTenDigits(once);
    assert Digits(once) == once;
  }

  // ---------------------------------------------------------------------------
  // Names and roles

  /** Lines 199 and 208: `name.split(' ')[0]`. */
  function FirstName(name: string): string
  {
    Split(name, ' ')[0]
  }

  /** Lines 200 and 209: `name.split(' ').slice(1).join(' ') || ''`. */
  function LastName(name: string): string
  {
    Join(Split(name, ' ')[1..], ' ')
  }

  /** The first name is the text before the first space and the last name is everything after
      it, so together they give back the name; without a space the last name is empty. */
  lemma NameSplit(name: string)
    ensures ' ' !in name ==> FirstName(name) == name && LastName(name) == ""
    ensures ' ' in name ==>
      var k := IndexOf(name, ' ');
      FirstName(name) == name[..k] && LastName(name) == name[k + 1..] &&
      FirstName(name) + " " + LastName(name) == name
    ensures ' ' !in FirstName(name)
  {
    if ' ' !in name {
      SplitWithoutSeparator(name, ' ');
    } else {
      SplitAtFirst(name, ' ');
      var k := IndexOf(name, ' ');
      assert name == name[..k] + [name[k]] + name[k + 1..];
    }
  }

  /** Lines 187-189: append DRIVER unless the user already has it. */
  function WithDriverRole(roles: seq<UserRole>): (r: seq<UserRole>)
    ensures Driver in r
    ensures |roles| <= |r| <= |roles| + 1 && r[..|roles|] == roles
    ensures multiset(r)[Driver] == if Driver in roles then multiset(roles)[Driver] else 1
    ensures Driver in roles ==> r == roles
  {
    if Driver in roles then roles else roles + [Driver]
  }

  // ---------------------------------------------------------------------------
  // Driver profiles

  datatype DriverStatus = PendingApproval | Active | Inactive | Suspended

  /** A position, longitude first as in `POINT(lon lat)`. */
  datatype Point = Point(longitude: real, latitude: real)

  datatype DriverProfile = DriverProfile(
    userId: string,
    firstName: string,
    lastName: string,
    vehicleModel: string,
    vehicleColor: string,
    vehiclePlateNumber: string,
    status: DriverStatus,
    isOnline: bool,
    isAvailable: bool,
    currentLatitude: Option<real>,
    currentLongitude: Option<real>,
    currentLocation: Option<Point>)

  datatype RegisterDriverInput = RegisterDriverInput(
    phoneNumber: string,
    name: string,
    licenseNumber: string,
    vehicleModel: string,
    vehicleColor: string,
    vehiclePlateNumber: string)

  /** Lines 178-191: the user row after registration, new or updated. */
  function RegisteredUser(existing: Option<User>, newId: string, phone: string, name: string): (r: User)
    ensures r.name == name && Driver in r.roles
    ensures existing.None? ==> r.id == newId && r.phoneNumber == phone && r.roles == [Rider, Driver] && !r.isVerified
    ensures existing.Some? ==>
      r.id == existing.value.id && r.phoneNumber == existing.value.phoneNumber &&
      r.isVerified == existing.value.isVerified && r.roles == WithDriverRole(existing.value.roles)
  {
    match existing
    case None => User(newId, name, phone, [Rider, Driver], false)
    case Some(u) => u.(name := name, roles := WithDriverRole(u.roles))
  }

  /** Lines 193-214: a new profile awaits approval and is offline; an existing one gets the new
      names and vehicle and keeps its status, availability and location. */
  function RegisteredProfile(existing: Option<DriverProfile>, userId: string, input: RegisterDriverInput): (r: DriverProfile)
    ensures r.firstName == FirstName(input.name) && r.lastName == LastName(input.name)
    ensures r.vehicleModel == input.vehicleModel && r.vehicleColor == input.vehicleColor
    ensures r.vehiclePlateNumber == input.vehiclePlateNumber
    ensures existing.None? ==>
      r.userId == userId && r.status == PendingApproval && !r.isOnline && !r.isAvailable &&
      r.currentLatitude.None? && r.currentLongitude.None? && r.currentLocation.None?
    ensures existing.Some? ==>
      r.(firstName := existing.value.firstName, lastName := existing.value.lastName,
         vehicleModel := existing.value.vehicleModel, vehicleColor := existing.value.vehicleColor,
         vehiclePlateNumber := existing.value.vehiclePlateNumber) == existing.value
  {
    match existing
    case None =>
      DriverProfile(userId, FirstName(input.name), LastName(input.name), input.vehicleModel, input.vehicleColor,
        input.vehiclePlateNumber, PendingApproval, false, false, None, None, None)
    case Some(d) =>
      d.(firstName := FirstName(input.name), lastName := LastName(input.name), vehicleModel := input.vehicleModel,
         vehicleColor := input.vehicleColor, vehiclePlateNumber := input.vehiclePlateNumber)
  }

  datatype Location = Location(latitude: real, longitude: real)

  datatype StatusUpdate = StatusUpdate(online: bool, location: Option<Location>)

  /** Lines 259-266: both flags follow `online`; the position changes only when one is sent. */
  function WithOnlineStatus(d: DriverProfile, update: StatusUpdate): (r: DriverProfile)
    ensures r.isOnline == update.online && r.isAvailable == update.online
    ensures update.location.None? ==> r.(isOnline := d.isOnline, isAvailable := d.isAvailable) == d
    ensures update.location.Some? ==>
      var loc := update.location.value;
      r.currentLatitude == Some(loc.latitude) && r.currentLongitude == Some(loc.longitude) &&
      r.currentLocation == Some(Point(loc.longitude, loc.latitude)) &&
      r.(isOnline := d.isOnline, isAvailable := d.isAvailable, currentLatitude := d.currentLatitude,
         currentLongitude := d.currentLongitude, currentLocation := d.currentLocation) == d
  {
    var r := d.(isOnline := update.online, isAvailable := update.online);
    match update.location
    case None => r
    case Some(loc) =>
      r.(currentLatitude := Some(loc.latitude), currentLongitude := Some(loc.longitude),
         currentLocation := Some(Point(loc.longitude, loc.latitude)))
  }

  // ---------------------------------------------------------------------------
  // Documents

  datatype DocumentType = ProfileImage | Aadhar | License | LicenseBack | Pan | VehicleRc | Insurance

  datatype DocumentStatus = Pending | Approved | Rejected

  /** An uploaded file as the multipart parser hands it over. */
  datatype UploadedFile = UploadedFile(originalName: string, mimeType: string, size: int, content: seq<bv8>)

  datatype DriverDocument = DriverDocument(
    driverId: string,
    documentType: DocumentType,
    content: seq<bv8>,
    fileName: string,
    mimeType: string,
    fileSize: int,
    documentNumber: Option<string>,
    expiryDate: Option<string>,
    status: DocumentStatus,
    verifiedBy: Option<string>,
    rejectionReason: Option<string>)

  /** A freshly filed document awaiting review. */
  function FiledDocument(driverId: string, t: DocumentType, file: UploadedFile, number: Option<string>,
                         expiry: Option<string>): DriverDocument
  {
    DriverDocument(driverId, t, file.content, file.originalName, file.mimeType, file.size, number, expiry,
      Pending, None, None)
  }

  /** The file lists of the registration form, one per field; a field may be missing. */
  datatype DriverFiles = DriverFiles(
    profilePhoto: Option<seq<UploadedFile>>,
    licenseFrontPhoto: Option<seq<UploadedFile>>,
    licenseBackPhoto: Option<seq<UploadedFile>>,
    aadhaarPhoto: Option<seq<UploadedFile>>,
    panPhoto: Option<seq<UploadedFile>>)

  /** The first file of a list that is present and non-empty. */
  function FirstFile(fileList: Option<seq<UploadedFile>>): Option<UploadedFile>
  {
    if fileList.Some? && |fileList.value| > 0 then Some(fileList.value[0]) else None
  }

  /** Lines 218-232 (`addDoc`): push a document for the first file of a non-empty list. */
  function AddDoc(docs: seq<DriverDocument>, fileList: Option<seq<UploadedFile>>, driverId: string,
                  t: DocumentType, number: Option<string>): (r: seq<DriverDocument>)
    ensures FirstFile(fileList).None? ==> r == docs
    ensures FirstFile(fileList).Some? ==> r == docs + [FiledDocument(driverId, t, FirstFile(fileList).value, number, None)]
  {
    if fileList.Some? && |fileList.value| > 0 then
      docs + [FiledDocument(driverId, t, fileList.value[0], number, None)]
    else docs
  }

  /** Where each document type comes from in the registration form. */
  function FormField(files: DriverFiles, t: DocumentType): Option<seq<UploadedFile>>
  {
    match t
    case ProfileImage => files.profilePhoto
    case License => files.licenseFrontPhoto
    case LicenseBack => files.licenseBackPhoto
    case Aadhar => files.aadhaarPhoto
    case Pan => files.panPhoto
    case VehicleRc => None
    case Insurance => None
  }

  /** Lines 235-236: only the two licence sides carry the licence number. */
  function RegistrationNumber(t: DocumentType, licenseNumber: string): Option<string>
  {
    if t == License || t == LicenseBack then Some(licenseNumber) else None
  }

  /** Lines 234-238: the documents a registration files, in the order they are added. */
  function CollectDocuments(driverId: string, files: DriverFiles, licenseNumber: string): seq<DriverDocument>
  {
    var d0 := AddDoc([], files.profilePhoto, driverId, ProfileImage, None);
    var d1 := AddDoc(d0, files.licenseFrontPhoto, driverId, License, Some(licenseNumber));
    var d2 := AddDoc(d1, files.licenseBackPhoto, driverId, LicenseBack, Some(licenseNumber));
    var d3 := AddDoc(d2, files.aadhaarPhoto, driverId, Aadhar, None);
    AddDoc(d3, files.panPhoto, driverId, Pan, None)
  }

  /** The document a registration files for a form field that came with a file. */
  function DocumentFor(driverId: string, files: DriverFiles, licenseNumber: string, t: DocumentType): (r: DriverDocument)
    requires FirstFile(FormField(files, t)).Some?
    ensures r.driverId == driverId && r.documentType == t && r.status == Pending && r.expiryDate.None?
    ensures r.documentNumber == RegistrationNumber(t, licenseNumber)
    ensures r.content == FirstFile(FormField(files, t)).value.content
    ensures r.fileName == FirstFile(FormField(files, t)).value.originalName
    ensures r.mimeType == FirstFile(FormField(files, t)).value.mimeType
    ensures r.fileSize == FirstFile(FormField(files, t)).value.size
  {
    FiledDocument(driverId, t, FirstFile(FormField(files, t)).value, RegistrationNumber(t, licenseNumber), None)
  }

  /** What one `addDoc` call contributes: the document for the field's first file, if any. */
  function Slot(driverId: string, files: DriverFiles, licenseNumber: string, t: DocumentType): (r: seq<DriverDocument>)
    ensures |r| <= 1
    ensures |r| == 1 <==> FirstFile(FormField(files, t)).Some?
    ensures |r| == 1 ==> r[0] == DocumentFor(driverId, files, licenseNumber, t)
  {
    if FirstFile(FormField(files, t)).Some? then [DocumentFor(driverId, files, licenseNumber, t)] else []
  }

  function TypesOf(docs: seq<DriverDocument>): set<DocumentType>
  {
    set i | 0 <= i < |docs| :: docs[i].documentType
  }

  /** The documents a registration files are, in this order, the profile photo, the licence front,
      the licence back, the aadhaar card and the pan card, each present exactly when its field came
      with a file and built from the first file only: at most five, one per field. */
  lemma CollectDocumentsInFormOrder(driverId: string, files: DriverFiles, licenseNumber: string)
    ensures var r := CollectDocuments(driverId, files, licenseNumber);
      r == Slot(driverId, files, licenseNumber, ProfileImage) + Slot(driverId, files, licenseNumber, License)
         + Slot(driverId, files, licenseNumber, LicenseBack) + Slot(driverId, files, licenseNumber, Aadhar)
         + Slot(driverId, files, licenseNumber, Pan) &&
      |r| <= 5
  {
    var d0 := AddDoc([], files.profilePhoto, driverId, ProfileImage, None);
    assert d0 == Slot(driverId, files, licenseNumber, ProfileImage);
    var d1 := AddDoc(d0, files.licenseFrontPhoto, driverId, License, Some(licenseNumber));
    assert d1 == d0 + Slot(driverId, files, licenseNumber, License);
    var d2 := AddDoc(d1, files.licenseBackPhoto, driverId, LicenseBack, Some(licenseNumber));
    assert d2 == d1 + Slot(driverId, files, licenseNumber, LicenseBack);
    var d3 := AddDoc(d2, files.aadhaarPhoto, driverId, Aadhar, None);
    assert d3 == d2 + Slot(driverId, files, licenseNumber, Aadhar);
    var r := AddDoc(d3, files.panPhoto, driverId, Pan, None);
    assert r == d3 + Slot(driverId, files, licenseNumber, Pan);
  }

  /** Every filed document is the one its field's first file gives, and a field has a document
      exactly when it came with a file. */
  lemma CollectDocumentsFileEachFieldOnce(driverId: string, files: DriverFiles, licenseNumber: string)
    ensures var r := CollectDocuments(driverId, files, licenseNumber);
      (forall i :: 0 <= i < |r| ==>
        FirstFile(FormField(files, r[i].documentType)).Some? &&
        r[i] == DocumentFor(driverId, files, licenseNumber, r[i].documentType)) &&
      (forall t: DocumentType :: t in TypesOf(r) <==> FirstFile(FormField(files, t)).Some?)
  {
    CollectDocumentsInFormOrder(driverId, files, licenseNumber);
    var r := CollectDocuments(driverId, files, licenseNumber);
    var slots := [ProfileImage, License, LicenseBack, Aadhar, Pan];
    forall i | 0 <= i < |r|
      ensures FirstFile(FormField(files, r[i].documentType)).Some? &&
        r[i] == DocumentFor(driverId, files, licenseNumber, r[i].documentType)
    {
      assert r[i] in r;
      var t :| t in slots && r[i] in Slot(driverId, files, licenseNumber, t);
    }
    forall t: DocumentType | FirstFile(FormField(files, t)).Some? ensures t in TypesOf(r) {
      var d := DocumentFor(driverId, files, licenseNumber, t);
      assert d in r;
      var i :| 0 <= i < |r| && r[i] == d;
    }
  }

  /** Lines 295, 309: an expiry date is kept only when it is a non-empty string. */
  function ExpiryDate(expiry: Option<string>): (r: Option<string>)
    ensures r.Some? <==> expiry.Some? && expiry.value != ""
    ensures r.Some? ==> r == expiry
  {
    if expiry.Some? && expiry.value != "" then expiry else None
  }

  datatype UploadDocumentInput = UploadDocumentInput(documentType: DocumentType, documentNumber: Option<string>, expiryDate: Option<string>)

  /** Lines 290-296: the document object after the assignments, as the reply returns it. It
      takes the new file, number and expiry date and goes back to PENDING; an absent number or
      expiry date is assigned `undefined`. Owner, type and review fields stay. */
  function Assigned(doc: DriverDocument, input: UploadDocumentInput, file: UploadedFile): (r: DriverDocument)
    ensures r.driverId == doc.driverId && r.documentType == doc.documentType
    ensures r.status == Pending
    ensures r.verifiedBy == doc.verifiedBy && r.rejectionReason == doc.rejectionReason
    ensures r.content == file.content && r.fileName == file.originalName && r.mimeType == file.mimeType && r.fileSize == file.size
    ensures r.documentNumber == input.documentNumber && r.expiryDate == ExpiryDate(input.expiryDate)
  {
    doc.(content := file.content, fileName := file.originalName, mimeType := file.mimeType, fileSize := file.size,
         documentNumber := input.documentNumber, expiryDate := ExpiryDate(input.expiryDate), status := Pending)
  }

  /** Line 298: the row the save leaves in the table. Columns assigned `undefined` are skipped by
      the save, so an absent number or expiry date keeps the stored one; every other column is
      the assigned value. */
  function Refiled(doc: DriverDocument, input: UploadDocumentInput, file: UploadedFile): (r: DriverDocument)
    ensures r.documentNumber == if input.documentNumber.Some? then input.documentNumber else doc.documentNumber
    ensures r.expiryDate == if ExpiryDate(input.expiryDate).Some? then ExpiryDate(input.expiryDate) else doc.expiryDate
    ensures r.(documentNumber := None, expiryDate := None) == Assigned(doc, input, file).(documentNumber := None, expiryDate := None)
  {
    var given := Assigned(doc, input, file);
    given.(documentNumber := if given.documentNumber.Some? then given.documentNumber else doc.documentNumber,
          expiryDate := if given.expiryDate.Some? then given.expiryDate else doc.expiryDate)
  }

  /** Lines 282-287: the first document of this driver and type. */
  function IndexOfDocument(docs: seq<DriverDocument>, driverId: string, t: DocumentType): (r: Option<nat>)
    ensures r.Some? ==> r.value < |docs| && docs[r.value].driverId == driverId && docs[r.value].documentType == t
    ensures r.None? <==> CountKey(docs, driverId, t) == 0
  {
    if docs == [] then None
    else if docs[0].driverId == driverId && docs[0].documentType == t then Some(0)
    else match IndexOfDocument(docs[1..], driverId, t)
      case None => None
      case Some(k) => Some(k + 1)
  }

  /** How many documents of this driver and type the table holds. */
  function CountKey(docs: seq<DriverDocument>, driverId: string, t: DocumentType): nat
  {
    if docs == [] then 0
    else (if docs[0].driverId == driverId && docs[0].documentType == t then 1 else 0) + CountKey(docs[1..], driverId, t)
  }

  ghost predicate AtMostOnePerKey(docs: seq<DriverDocument>)
  {
    forall k, t :: CountKey(docs, k, t) <= 1
  }

  lemma {:induction false} CountKeyAppend(docs: seq<DriverDocument>, d: DriverDocument, k: string, t: DocumentType)
    ensures CountKey(docs + [d], k, t) == CountKey(docs, k, t) + (if d.driverId == k && d.documentType == t then 1 else 0)
  {
    if docs != [] {
      assert (docs + [d])[1..] == docs[1..] + [d];
      CountKeyAppend(docs[1..], d, k, t);
    }
  }

  lemma {:induction false} CountKeyReplace(docs: seq<DriverDocument>, i: nat, d: DriverDocument, k: string, t: DocumentType)
    requires i < |docs|
    requires d.driverId == docs[i].driverId && d.documentType == docs[i].documentType
    ensures CountKey(docs[i := d], k, t) == CountKey(docs, k, t)
  {
    if i > 0 {
      assert docs[i := d][1..] == docs[1..][i - 1 := d];
      CountKeyReplace(docs[1..], i - 1, d, k, t);
    }
  }

  /** After an upload the driver has exactly one document of that type if it had none, and
      otherwise as many as before; every other key keeps its count. */
  lemma UploadCounts(docs: seq<DriverDocument>, driverId: string, input: UploadDocumentInput, file: UploadedFile)
    ensures var after := Upserted(docs, driverId, input, file);
      (CountKey(after, driverId, input.documentType) ==
        if CountKey(docs, driverId, input.documentType) == 0 then 1 else CountKey(docs, driverId, input.documentType)) &&
      (forall k, t :: (k != driverId || t != input.documentType) ==> CountKey(after, k, t) == CountKey(docs, k, t))
  {
    match IndexOfDocument(docs, driverId, input.documentType)
    case Some(i) =>
      forall k, t ensures CountKey(Upserted(docs, driverId, input, file), k, t) == CountKey(docs, k, t) {
        CountKeyReplace(docs, i, Refiled(docs[i], input, file), k, t);
      }
    case None =>
      var d := FiledDocument(driverId, input.documentType, file, input.documentNumber, ExpiryDate(input.expiryDate));
      forall k, t ensures CountKey(Upserted(docs, driverId, input, file), k, t) ==
          CountKey(docs, k, t) + (if k == driverId && t == input.documentType then 1 else 0) {
        CountKeyAppend(docs, d, k, t);
      }
  }

  /** Uploading keeps a table with at most one document per driver and type that way. */
  lemma UploadKeepsOnePerKey(docs: seq<DriverDocument>, driverId: string, input: UploadDocumentInput, file: UploadedFile)
    requires AtMostOnePerKey(docs)
    ensures AtMostOnePerKey(Upserted(docs, driverId, input, file))
  {
    UploadCounts(docs, driverId, input, file);
    var after := Upserted(docs, driverId, input, file);
    forall k, t ensures CountKey(after, k, t) <= 1 {
      assert CountKey(docs, k, t) <= 1;
    }
  }

  /** Lines 282-315: the documents table after an upload for an existing driver. */
  function Upserted(docs: seq<DriverDocument>, driverId: string, input: UploadDocumentInput, file: UploadedFile): seq<DriverDocument>
  {
    match IndexOfDocument(docs, driverId, input.documentType)
    case Some(i) => docs[i := Refiled(docs[i], input, file)]
    case None => docs + [FiledDocument(driverId, input.documentType, file, input.documentNumber, ExpiryDate(input.expiryDate))]
  }

  // ---------------------------------------------------------------------------
  // The service

  /** NotFound, or the TypeError raised reading `file.buffer` when the request carries no file. */
  datatype DriverError = DriverNotFound | FileMissing

  datatype Registration = Registration(message: string, driverId: string, userId: string, status: string)

  datatype UploadOutcome = DocumentUpdated(document: DriverDocument) | DocumentUploaded(document: DriverDocument)

  class DriversService {
    var users: seq<User>
    var drivers: map<string, DriverProfile>
    var documents: seq<DriverDocument>

    /** Users are unique by id and phone; every profile is filed under its own user id. */
    ghost predicate Valid()
      reads this
    {
      UniqueUsers(users) && forall id :: id in drivers ==> drivers[id].userId == id
    }

    constructor()
      ensures Valid()
      ensures users == [] && drivers == map[] && documents == []
    {
      users := [];
      drivers := map[];
      documents := [];
    }

    /** Lines 176-191: find the user by phone number and give it the name and the DRIVER role,
        or save a new RIDER and DRIVER user under `newUserId`. */
    method SaveDriverUser(phone: string, name: string, newUserId: string) returns (user: User)
      requires Valid()
      requires newUserId !in UserIds(users)
      modifies this
      ensures Valid()
      ensures drivers == old(drivers) && documents == old(documents)
      ensures match IndexOfPhone(old(users), phone)
        case None => user == RegisteredUser(None, newUserId, phone, name) && users == old(users) + [user]
        case Some(i) => user == RegisteredUser(Some(old(users)[i]), newUserId, phone, name) && users == old(users)[i := user]
    {
      var found := IndexOfPhone(users, phone);
      if found.None? {
        user := RegisteredUser(None, newUserId, phone, name);
        AppendKeepsUnique(users, user);
        users := users + [user];
      } else {
        var i := found.value;
        user := RegisteredUser(Some(users[i]), newUserId, phone, name);
        ReplaceKeepsUnique(users, i, user);
        users := users[i := user];
      }
    }

    /** Lines 193-214: create the profile, or update the names and vehicle of the existing one. */
    method SaveDriverProfile(userId: string, input: RegisterDriverInput) returns (driver: DriverProfile)
      requires Valid()
      modifies this
      ensures Valid()
      ensures users == old(users) && documents == old(documents)
      ensures driver == RegisteredProfile(if userId in old(drivers) then Some(old(drivers)[userId]) else None, userId, input)
      ensures drivers == old(drivers)[userId := driver]
    {
      if userId !in drivers {
        driver := RegisteredProfile(None, userId, input);
      } else {
        driver := RegisteredProfile(Some(drivers[userId]), userId, input);
      }
      drivers := drivers[userId := driver];
    }

    /** Lines 216-242: push the documents of the form, then save them if there are any. */
    method SaveFormDocuments(driverId: string, files: DriverFiles, licenseNumber: string)
      modifies this
      ensures users == old(users) && drivers == old(drivers)
      ensures documents == old(documents) + CollectDocuments(driverId, files, licenseNumber)
    {
      var documentsToCreate: seq<DriverDocument> := [];
      documentsToCreate := AddDoc(documentsToCreate, files.profilePhoto, driverId, ProfileImage, None);
      documentsToCreate := AddDoc(documentsToCreate, files.licenseFrontPhoto, driverId, License, Some(licenseNumber));
      documentsToCreate := AddDoc(documentsToCreate, files.licenseBackPhoto, driverId, LicenseBack, Some(licenseNumber));
      documentsToCreate := AddDoc(documentsToCreate, files.aadhaarPhoto, driverId, Aadhar, None);
      documentsToCreate := AddDoc(documentsToCreate, files.panPhoto, driverId, Pan, None);
      if |documentsToCreate| > 0 {
        documents := documents + documentsToCreate;
      }
    }

    /** Lines 162-250. The user found by the normalised phone number (or a new one with id
        `newUserId`) gets the name and the DRIVER role; its profile is created or updated; the
        documents of the form are added. The reply always says `pending_approval`, also for a
        profile that keeps another status. */
    method RegisterDriver(input: RegisterDriverInput, files: DriverFiles, newUserId: string) returns (reply: Registration)
      requires Valid()
      requires newUserId !in UserIds(users)
      modifies this
      ensures Valid()
      ensures var phone := NormalizePhoneNumber(input.phoneNumber);
        match IndexOfPhone(old(users), phone)
        case None =>
          users == old(users) + [RegisteredUser(None, newUserId, phone, input.name)] && reply.userId == newUserId
        case Some(i) =>
          users == old(users)[i := RegisteredUser(Some(old(users)[i]), newUserId, phone, input.name)] &&
          reply.userId == old(users)[i].id
      ensures reply.driverId == reply.userId && reply.status == "pending_approval"
      ensures drivers == old(drivers)[reply.userId := RegisteredProfile(
        if reply.userId in old(drivers) then Some(old(drivers)[reply.userId]) else None, reply.userId, input)]
      ensures documents == old(documents) + CollectDocuments(reply.userId, files, input.licenseNumber)
    {
      var normalizedPhone := NormalizePhoneNumber(input.phoneNumber);
      var user := SaveDriverUser(normalizedPhone, input.name, newUserId);
      var driver := SaveDriverProfile(user.id, input);
      SaveFormDocuments(driver.userId, files, input.licenseNumber);
      reply := Registration("Driver registered successfully. Awaiting admin verification.",
        driver.userId, user.id, "pending_approval");
    }

    /** Lines 252-270. */
    method UpdateDriverStatus(userId: string, update: StatusUpdate) returns (r: Result<string, DriverError>)
      requires Valid()
      modifies this
      ensures Valid()
      ensures users == old(users) && documents == old(documents)
      ensures userId !in old(drivers) ==> r == Failure(DriverNotFound) && drivers == old(drivers)
      ensures userId in old(drivers) ==>
        r.Success? && drivers == old(drivers)[userId := WithOnlineStatus(old(drivers)[userId], update)]
    {
      if userId !in drivers {
        return Failure(DriverNotFound);
      }
      var driver := WithOnlineStatus(drivers[userId], update);
      drivers := drivers[userId := driver];
      r := Success("Driver status updated successfully");
    }

    /** Lines 272-316: replace the driver's document of this type, or add one. */
    method UploadDocument(driverId: string, input: UploadDocumentInput, file: Option<UploadedFile>)
      returns (r: Result<UploadOutcome, DriverError>)
      requires Valid()
      modifies this
      ensures Valid()
      ensures users == old(users) && drivers == old(drivers)
      ensures driverId !in old(drivers) ==> r == Failure(DriverNotFound) && documents == old(documents)
      ensures driverId in old(drivers) && file.None? ==> r == Failure(FileMissing) && documents == old(documents)
      ensures driverId in old(drivers) && file.Some? ==> documents == Upserted(old(documents), driverId, input, file.value)
      ensures driverId in old(drivers) && file.Some? ==>
        match IndexOfDocument(old(documents), driverId, input.documentType)
        case Some(i) => r == Success(DocumentUpdated(Assigned(old(documents)[i], input, file.value)))
        case None => r == Success(DocumentUploaded(documents[|documents| - 1]))
    {
      if driverId !in drivers {
        return Failure(DriverNotFound);
      }
      var existing := IndexOfDocument(documents, driverId, input.documentType);
      if file.None? {
        return Failure(FileMissing);
      }
      if existing.Some? {
        var i := existing.value;
        var doc := Assigned(documents[i], input, file.value);
        documents := documents[i := Refiled(documents[i], input, file.value)];
        r := Success(DocumentUpdated(doc));
      } else {
        var doc := FiledDocument(driverId, input.documentType, file.value, input.documentNumber, ExpiryDate(input.expiryDate));
        documents := documents + [doc];
        r := Success(DocumentUploaded(doc));
      }
    }
  }
}
