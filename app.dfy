/** The review-and-submit state machine of the main screen.

    The screen holds a status, the record under review, an error message,
    the destination configuration and whether the settings dialog is open.
    Every handler runs to completion before the next event is handled, so the
    PROCESSING status it passes through while waiting for the extraction
    service or the network is never seen between two events. What the outside
    world answers (the extracted record or a failure; whether the POST threw)
    comes in as a parameter. */
module App {
  import opened Types
  import DataReview
  import Payload

  /** Shown when the extraction service fails. */
  const ExtractionFailedMsg: string := "Không thể đọc được ảnh. Vui lòng thử lại với ảnh rõ nét hơn."

  /** Shown when the POST to the destination throws. */
  const SendFailedMsg: string := "Gửi dữ liệu thất bại. Vui lòng kiểm tra lại đường dẫn kết nối."

  /** What the extraction service answers: a six-field record, or a failure. */
  datatype Extraction = Extracted(data: BusinessData) | ExtractionFailed

  /** The two failures are told apart: a failed send never shows the
      extraction message. */
  lemma FailureMessagesDiffer()
    ensures ExtractionFailedMsg != SendFailedMsg
  {
    assert |ExtractionFailedMsg| != |SendFailedMsg|;
  }

  /** The POST the send handler issues. */
  datatype Request =
    | FormRequest(url: string, form: seq<Payload.Entry>)
    | WebhookRequest(url: string, body: seq<Payload.Entry>)

  /** The user actions the screen offers. */
  datatype Event = SelectImage | Edit | Confirm | Cancel | StartOver

  /** The URL of the selected destination: the form URL for Google Forms, the
      webhook URL otherwise. */
  function DestinationUrl(c: SheetConfig): (url: string)
    ensures c.submitMethod == GOOGLE_FORM ==> url == c.formUrl
    ensures c.submitMethod == WEBHOOK ==> url == c.webhookUrl
  {
    if c.submitMethod == GOOGLE_FORM then c.formUrl else c.webhookUrl
  }

  /** A destination is configured exactly when the selected method's URL is
      not empty. */
  function IsConfigured(c: SheetConfig): (configured: bool)
    ensures configured <==> DestinationUrl(c) != ""
  {
    if c.submitMethod == GOOGLE_FORM then c.formUrl != "" else c.webhookUrl != ""
  }

  /** Which controls are on screen in each status: the image pickers while
      idle, the review form (edit, cancel, confirm) while reviewing, the
      start-over button after a success or an error, and nothing while
      processing. */
  function Enabled(s: Status, e: Event): (on: bool)
    ensures on ==> s != PROCESSING
    ensures s == IDLE ==> (on <==> e == SelectImage)
    ensures e in {Edit, Confirm, Cancel} ==> (on <==> s == REVIEW)
    ensures s in {SUCCESS, ERROR} ==> (on <==> e == StartOver)
  {
    match s
    case IDLE => e == SelectImage
    case PROCESSING => false
    case REVIEW => e == Edit || e == Confirm || e == Cancel
    case SUCCESS => e == StartOver
    case ERROR => e == StartOver
  }

  /** The request for a record under a configuration: the form strategy's
      pairs to the form URL, or the webhook strategy's object to the webhook
      URL. */
  function RequestFor(r: BusinessData, c: SheetConfig): (req: Request)
    ensures req.url == DestinationUrl(c)
    ensures req.FormRequest? <==> c.submitMethod == GOOGLE_FORM
  {
    if c.submitMethod == GOOGLE_FORM then FormRequest(c.formUrl, Payload.FormPayload(r, c.googleFormMapping))
    else WebhookRequest(c.webhookUrl, Payload.WebhookPayload(r, c.webhookMapping))
  }

  class AppState {
    var status: Status
    var extractedData: BusinessData
    var errorMsg: string
    var config: SheetConfig
    var isSettingsOpen: bool

    /** Between events the screen is never PROCESSING; the idle screen holds
        the empty record; an error message is present exactly in the error
        screen, and it is one of the two fixed messages. */
    ghost predicate Valid()
      reads this
    {
      && status != PROCESSING
      && (status == IDLE ==> extractedData == InitialData)
      && (status == ERROR <==> errorMsg != "")
      && (status == ERROR ==> errorMsg == ExtractionFailedMsg || errorMsg == SendFailedMsg)
    }

    constructor ()
      ensures Valid()
      ensures status == IDLE && extractedData == InitialData && errorMsg == ""
      ensures config == InitialConfig && !isSettingsOpen
    {
      status := IDLE;
      extractedData := InitialData;
      errorMsg := "";
      config := InitialConfig;
      isSettingsOpen := false;
    }

    /** An image was picked (or the picker was dismissed, `hasFile` false)
        and the extraction service answered `outcome`. */
    method HandleFileChange(hasFile: bool, outcome: Extraction)
      requires Valid() && Enabled(status, SelectImage)
      modifies this
      ensures Valid()
      ensures config == old(config) && isSettingsOpen == old(isSettingsOpen)
      ensures !hasFile ==>
        status == old(status) && extractedData == old(extractedData) && errorMsg == old(errorMsg)
      ensures hasFile && outcome.Extracted? ==>
        status == REVIEW && extractedData == outcome.data && errorMsg == ""
      ensures hasFile && outcome.ExtractionFailed? ==>
        status == ERROR && errorMsg == ExtractionFailedMsg && extractedData == old(extractedData)
    {
      if !hasFile {
        return;
      }
      status := PROCESSING;
      errorMsg := "";
      match outcome
      case Extracted(data) =>
        extractedData := data;
        status := REVIEW;
      case ExtractionFailed =>
        errorMsg := ExtractionFailedMsg;
        status := ERROR;
    }

    /** An input of the review form changed field `f` to `v`. */
    method EditField(f: Field, v: string)
      requires Valid() && Enabled(status, Edit)
      modifies this
      ensures Valid()
      ensures extractedData == DataReview.With(old(extractedData), f, v)
      ensures status == old(status) && errorMsg == old(errorMsg)
      ensures config == old(config) && isSettingsOpen == old(isSettingsOpen)
    {
      extractedData := DataReview.With(extractedData, f, v);
    }

    /** The user confirmed the reviewed record; `sendThrows` says whether the
        POST threw. Without a destination URL nothing is sent and only the
        settings dialog opens. The response is never inspected: a POST that
        does not throw is a success. */
    method HandleSendData(sendThrows: bool) returns (sent: Option<Request>)
      requires Valid() && Enabled(status, Confirm)
      modifies this
      ensures Valid()
      ensures extractedData == old(extractedData) && config == old(config)
      ensures !IsConfigured(config) ==>
        sent == None && status == old(status) && errorMsg == old(errorMsg) && isSettingsOpen
      ensures IsConfigured(config) ==>
        sent == Some(RequestFor(extractedData, config)) && isSettingsOpen == old(isSettingsOpen)
      ensures IsConfigured(config) && !sendThrows ==> status == SUCCESS && errorMsg == old(errorMsg)
      ensures IsConfigured(config) && sendThrows ==> status == ERROR && errorMsg == SendFailedMsg
    {
      var isGoogleForm := config.submitMethod == GOOGLE_FORM;
      var destinationUrl := if isGoogleForm then config.formUrl else config.webhookUrl;
      if destinationUrl == "" {
        isSettingsOpen := true;
        return None;
      }
      status := PROCESSING;
      var request;
      if isGoogleForm {
        var form := Payload.BuildFormPayload(extractedData, config.googleFormMapping);
        request := FormRequest(destinationUrl, form);
      } else {
        var payload := Payload.BuildWebhookPayload(extractedData, config.webhookMapping);
        request := WebhookRequest(destinationUrl, payload);
      }
      sent := Some(request);
      if sendThrows {
        errorMsg := SendFailedMsg;
        status := ERROR;
      } else {
        status := SUCCESS;
      }
    }

    /** Cancel on the review form, start over after a success, retry after an
        error: back to the empty idle screen. Those buttons are on screen in
        the review, success and error states only. */
    method ResetApp()
      requires Valid() && (Enabled(status, Cancel) || Enabled(status, StartOver))
      modifies this
      ensures Valid()
      ensures status == IDLE && extractedData == InitialData && errorMsg == ""
      ensures config == old(config) && isSettingsOpen == old(isSettingsOpen)
    {
      status := IDLE;
      extractedData := InitialData;
      errorMsg := "";
    }

    /** The settings button in the header, or the not-configured notice on
        the idle screen, opens the dialog. */
    method OpenSettings()
      requires Valid()
      modifies this
      ensures Valid() && isSettingsOpen
      ensures status == old(status) && extractedData == old(extractedData) && errorMsg == old(errorMsg)
      ensures config == old(config)
    {
      isSettingsOpen := true;
    }

    /** The dialog was closed without saving; its close button exists only
        while it is open. */
    method CloseSettings()
      requires Valid() && isSettingsOpen
      modifies this
      ensures Valid() && !isSettingsOpen
      ensures status == old(status) && extractedData == old(extractedData) && errorMsg == old(errorMsg)
      ensures config == old(config)
    {
      isSettingsOpen := false;
    }

    /** The settings dialog, which is open, saved `c` and closed. */
    method SaveConfig(c: SheetConfig)
      requires Valid() && isSettingsOpen
      modifies this
      ensures Valid()
      ensures config == c && !isSettingsOpen
      ensures status == old(status) && extractedData == old(extractedData) && errorMsg == old(errorMsg)
    {
      config := c;
      isSettingsOpen := false;
    }
  }

  /** A whole review cycle through the handlers' contracts: the extracted
      record is reviewed, its company name corrected, and confirming under the
      default webhook mapping sends the corrected record key for key. */
  method ReviewCycle(webhookUrl: string)
    requires webhookUrl != ""
  {
    var app := new AppState();
    app.OpenSettings();
    app.SaveConfig(SheetConfig(WEBHOOK, "", DefaultFormMapping, webhookUrl, DefaultWebhookMapping));
    var card := BusinessData("", "Nguyen Van A", "", "a@x.com", "", "");
    app.HandleFileChange(true, Extracted(card));
    assert app.status == REVIEW && app.extractedData == card;
    app.EditField(CompanyName, "ABC Co");
    var sent := app.HandleSendData(false);
    var corrected := BusinessData("ABC Co", "Nguyen Van A", "", "a@x.com", "", "");
    assert app.extractedData == corrected;
    Payload.WebhookDefaultMapping(corrected);
    assert sent == Some(WebhookRequest(webhookUrl, Payload.RecordEntries(corrected)));
    assert app.status == SUCCESS;
    app.ResetApp();
    assert app.extractedData == InitialData;
  }
}
