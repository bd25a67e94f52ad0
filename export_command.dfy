/**
 * The command's Execute: choose between the three alerts, the download of a new report and
 * the logged, rethrown failure, and carry out the file-system effects of that branch.
 */
module ExportCommand {
  import opened UserRecords
  import opened Worksheets
  import opened ReportNames

  datatype Option<T> = None | Some(value: T)

  /** An exception raised by a collaborator; it is rethrown as it came. */
  datatype Fault = Fault(message: string)

  /** What enumerating a domain's users (and reading each user) gives: the users, or the
   *  exception it raised. */
  datatype Enumeration = Users(users: seq<User>) | Raised(fault: Fault)

  /** A saved report file: the name of its one sheet and its cells. */
  datatype Workbook = Workbook(sheetName: string, cells: Grid)

  /** The single outcome of one Execute call. */
  datatype Outcome =
    | SelectDomainAlert                  // no domain name was given
    | UnresolvedAlert(domainName: string) // the name does not resolve to a domain
    | NoUsersAlert(domainName: string)    // the domain has no user accounts
    | Download(path: string)             // the report was saved and offered for download
    | Rethrown(fault: Fault)             // raised inside the try block: logged, then rethrown
    | Uncaught(fault: Fault)             // raised creating the reports folder: not logged

  /** The text of the alert an outcome shows, if it is one of the three alerts. */
  function AlertText(o: Outcome): (text: Option<string>)
    ensures text.Some? <==> o.SelectDomainAlert? || o.UnresolvedAlert? || o.NoUsersAlert?
  {
    match o
    case SelectDomainAlert => Some("Please select a domain first.")
    case UnresolvedAlert(n) => Some("Domain name '" + n + "' could not be resolved")
    case NoUsersAlert(n) => Some("Domain name '" + n + "' contains no user accounts.")
    case _ => None
  }

  /** The reports folder under the data folder, as the download path names it. */
  function ReportFolder(dataFolder: string): string
  {
    dataFolder + "/reports"
  }

  /** The path handed to the download: "{reportFolder}/{filename}". */
  function DownloadPath(dataFolder: string, fileName: string): string
  {
    ReportFolder(dataFolder) + "/" + fileName
  }

  /** The state of the host the command touches: whether the reports folder exists, the
   *  files in it by name, and the errors logged. */
  class ReportHost {
    var folderExists: bool
    var reports: map<string, Workbook>
    var errorLog: seq<Fault>

    constructor (folderExists: bool, reports: map<string, Workbook>)
      ensures this.folderExists == folderExists && this.reports == reports && errorLog == []
    {
      this.folderExists := folderExists;
      this.reports := reports;
      errorLog := [];
    }

    /** Directory.CreateDirectory when the folder is missing; createFault is what it raises. */
    method CreateFolderIfMissing(createFault: Option<Fault>) returns (raised: Option<Fault>)
      modifies this
      ensures raised == (if old(folderExists) then None else createFault)
      ensures folderExists == (old(folderExists) || createFault.None?)
      ensures reports == old(reports) && errorLog == old(errorLog)
    {
      raised := None;
      if !folderExists {
        if createFault.Some? {
          raised := createFault;
        } else {
          folderExists := true;
        }
      }
    }

    /** workbook.SaveAs into the reports folder: overwrites a file of the same name. */
    method SaveAs(fileName: string, book: Workbook)
      modifies this
      ensures reports == old(reports)[fileName := book]
      ensures folderExists == old(folderExists) && errorLog == old(errorLog)
    {
      reports := reports[fileName := book];
    }

    /** Log.Error: records the exception once. */
    method LogError(fault: Fault)
      modifies this
      ensures errorLog == old(errorLog) + [fault]
      ensures folderExists == old(folderExists) && reports == old(reports)
    {
      errorLog := errorLog + [fault];
    }
  }

  predicate NoDomainGiven(domainParam: Option<string>)
  {
    domainParam.None? || domainParam.value == ""
  }

  /**
   * Execute. domainParam is the "domainname" parameter (None when absent); a name resolves
   * when it is a key of directory, whose value is what enumerating its users gives; now is
   * the current UTC time; createFault and saveFault are what creating the reports folder
   * and saving the workbook raise, if anything.
   */
  method Execute(host: ReportHost, domainParam: Option<string>,
                 directory: map<string, Enumeration>, dataFolder: string, now: Timestamp,
                 createFault: Option<Fault>, saveFault: Option<Fault>)
    returns (outcome: Outcome)
    requires ValidTimestamp(now)
    modifies host
    // No domain name: only the alert; nothing is looked up, created or written.
    ensures NoDomainGiven(domainParam) ==> outcome == SelectDomainAlert && unchanged(host)
    // A name that does not resolve: only the alert, before the reports folder is touched.
    ensures !NoDomainGiven(domainParam) && domainParam.value !in directory ==>
      outcome == UnresolvedAlert(domainParam.value) && unchanged(host)
    // The folder is missing and cannot be created: the exception escapes without logging.
    ensures (!NoDomainGiven(domainParam) && domainParam.value in directory
             && !old(host.folderExists) && createFault.Some?) ==>
      && outcome == Uncaught(createFault.value)
      && !host.folderExists && host.reports == old(host.reports)
      && host.errorLog == old(host.errorLog)
    // Otherwise the reports folder exists from here on.
    ensures (!NoDomainGiven(domainParam) && domainParam.value in directory
             && (old(host.folderExists) || createFault.None?)) ==>
      && host.folderExists
      && match directory[domainParam.value]
         case Raised(f) =>
           outcome == Rethrown(f) && host.errorLog == old(host.errorLog) + [f]
           && host.reports == old(host.reports)
         case Users(users) =>
           if users == [] then
             outcome == NoUsersAlert(domainParam.value)
             && host.errorLog == old(host.errorLog) && host.reports == old(host.reports)
           else if saveFault.Some? then
             outcome == Rethrown(saveFault.value)
             && host.errorLog == old(host.errorLog) + [saveFault.value]
             && host.reports == old(host.reports)
           else
             var fileName := ReportFileName(domainParam.value, now);
             && outcome == Download(DownloadPath(dataFolder, fileName))
             && host.errorLog == old(host.errorLog)
             && host.reports == old(host.reports)[fileName :=
                  Workbook("Users", ReportSheet(UserDatas(users)))]
  {
    if NoDomainGiven(domainParam) {
      return SelectDomainAlert;
    }
    var str := domainParam.value;
    if str !in directory {
      return UnresolvedAlert(str);
    }
    var domain := directory[str];

    var raised := host.CreateFolderIfMissing(createFault);
    if raised.Some? {
      return Uncaught(raised.value);
    }

    var filename := ReportFileName(str, now);

    // try
    match domain
    case Raised(f) =>
      host.LogError(f);
      return Rethrown(f);
    case Users(users) =>
      var userDatas := CollectUserDatas(users);
      if userDatas == [] {
        return NoUsersAlert(str);
      }
      var worksheet := GenerateExcel(userDatas);
      if saveFault.Some? {
        host.LogError(saveFault.value);
        return Rethrown(saveFault.value);
      }
      host.SaveAs(filename, Workbook(worksheet.name, worksheet.cells));
      return Download(DownloadPath(dataFolder, filename));
  }
}
