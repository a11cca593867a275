/** The broadcast page: a form of title, message and type sent to every
    user, four templates that fill the form, and the type list with its
    icons. */
module NotificationManagement {
  import opened Common
  import opened Text
  import opened ApiService
  import NotificationContext

  datatype BroadcastForm = BroadcastForm(title: string, message: string, notificationType: string)

  /** The form the page opens with and returns to after a broadcast. */
  const DefaultForm: BroadcastForm := BroadcastForm("", "", "ADMIN_MESSAGE")

  datatype TypeIcon = MessageSquare | AlertCircle | CheckCircle | XCircle | Package | Gift | TrendingUp

  datatype TypeOption = TypeOption(value: string, caption: string, icon: TypeIcon)

  /** `notificationTypes`, in the order of the select box: the values,
      their captions and their icons. */
  const TypeValues: seq<string> := [
    "ADMIN_MESSAGE", "SYSTEM_MESSAGE", "DEPOSIT_APPROVED", "DEPOSIT_REJECTED", "WITHDRAWAL_APPROVED",
    "WITHDRAWAL_REJECTED", "PLAN_PURCHASED", "REFERRAL_BONUS", "DAILY_EARNINGS", "FIRST_DEPOSIT_BONUS"]

  const TypeCaptions: seq<string> := [
    "رسالة إدارية", "رسالة نظام", "تأكيد إيداع", "رفض إيداع", "تأكيد سحب",
    "رفض سحب", "شراء خطة", "مكافأة إحالة", "أرباح يومية", "مكافأة أول إيداع"]

  const TypeIcons: seq<TypeIcon> := [
    MessageSquare, AlertCircle, CheckCircle, XCircle, CheckCircle, XCircle, Package, Gift, TrendingUp, Gift]

  /** The three lists zipped into the options the page renders. */
  function TypeOptions(): (r: seq<TypeOption>)
    ensures |r| == |TypeValues|
    ensures forall i :: 0 <= i < |r| ==> r[i] == TypeOption(TypeValues[i], TypeCaptions[i], TypeIcons[i])
  {
    seq(10, i requires 0 <= i < 10 => TypeOption(TypeValues[i], TypeCaptions[i], TypeIcons[i]))
  }

  /** The ten values are pairwise different, and they are exactly the
      types the notification store knows. */
  lemma TypeValuesDistinct()
    ensures |TypeOptions()| == 10
    ensures forall i, j :: 0 <= i < j < |TypeOptions()| ==> TypeOptions()[i].value != TypeOptions()[j].value
    ensures forall t :: t in NotificationContext.NotificationTypes <==> t in TypeValues
  {
    assert forall i, j :: 0 <= i < j < |TypeValues| ==> TypeValues[i] != TypeValues[j];
    assert forall i :: 0 <= i < 10 ==> TypeOptions()[i].value == TypeValues[i];
  }

  /** `notificationTypes.find(t => t.value === type)`'s icon, or the
      message icon when nothing matches. */
  function FindIcon(options: seq<TypeOption>, notificationType: string): (icon: TypeIcon)
    ensures (forall o :: o in options ==> o.value != notificationType) ==> icon == MessageSquare
    ensures options != [] && options[0].value == notificationType ==> icon == options[0].icon
  {
    if options == [] then MessageSquare
    else if options[0].value == notificationType then options[0].icon
    else FindIcon(options[1..], notificationType)
  }

  /** `getTypeIcon`. */
  function GetTypeIcon(notificationType: string): TypeIcon {
    FindIcon(TypeOptions(), notificationType)
  }

  /** With distinct values, the icon found for a listed value is the one
      listed with it. */
  lemma {:induction false} FindListedIcon(options: seq<TypeOption>, i: int)
    requires 0 <= i < |options|
    requires forall j, k :: 0 <= j < k < |options| ==> options[j].value != options[k].value
    ensures FindIcon(options, options[i].value) == options[i].icon
  {
    if i > 0 {
      assert options[0].value != options[i].value;
      FindListedIcon(options[1..], i - 1);
    }
  }

  /** Every listed type shows its own icon, and any other type the
      message icon. */
  lemma TypeIconLookup(notificationType: string)
    ensures forall i :: 0 <= i < |TypeOptions()| ==> GetTypeIcon(TypeOptions()[i].value) == TypeOptions()[i].icon
    ensures (forall o :: o in TypeOptions() ==> o.value != notificationType) ==> GetTypeIcon(notificationType) == MessageSquare
  {
    TypeValuesDistinct();
    forall i | 0 <= i < |TypeOptions()| ensures GetTypeIcon(TypeOptions()[i].value) == TypeOptions()[i].icon {
      FindListedIcon(TypeOptions(), i);
    }
  }

  // ---------------------------------------------------------------------
  // Templates

  datatype Template = Maintenance | SpecialOffer | SystemUpdate | ReferralReward

  /** The title, message and type each template button writes. */
  function TemplateForm(t: Template): BroadcastForm {
    match t
    case Maintenance => BroadcastForm(MaintenanceTitle, MaintenanceMessage, "SYSTEM_MESSAGE")
    case SpecialOffer => BroadcastForm(OfferTitle, OfferMessage, "ADMIN_MESSAGE")
    case SystemUpdate => BroadcastForm(UpdateTitle, UpdateMessage, "SYSTEM_MESSAGE")
    case ReferralReward => BroadcastForm(ReferralTitle, ReferralMessage, "REFERRAL_BONUS")
  }

  // Each message is the source's one literal, written as a concatenation
  // of short pieces: the verifier reads the characters of a short literal
  // but not of a long one, and `TemplatesAreSendable` needs the first one.
  const MaintenanceTitle: string := "صيانة النظام"
  const MaintenanceMessage: string :=
    "سيتم إجراء صيانة " + "للنظام غداً من الساعة " + "2:00 صباحاً حتى 4:00 " + "صباحاً. نعتذر عن أي إزعاج."
  const OfferTitle: string := "عرض خاص"
  const OfferMessage: string := "عرض خاص! احصل " + "على خصم 20% على " + "جميع الخطط لمدة محدودة."
  const UpdateTitle: string := "تحديث النظام"
  const UpdateMessage: string := "تم تحديث النظام " + "بنجاح. يمكنك الآن " + "الاستمتاع بالميزات الجديدة."
  const ReferralTitle: string := "مكافأة الإحالة"
  const ReferralMessage: string := "احصل على مكافأة " + "إضافية 5% لكل إحالة " + "جديدة هذا الشهر!"

  /** The submit guard: a title or message that is empty once trimmed. */
  predicate Incomplete(f: BroadcastForm) {
    IsBlank(f.title) || IsBlank(f.message)
  }

  /** Whether a string starts with a non-space character. */
  lemma NonSpaceStartNotBlank(s: string)
    requires |s| > 0 && !IsSpace(s[0])
    ensures !IsBlank(s)
  {
    assert !AllSpace(s);
  }

  /** Each template's title and message start with a letter. */
  lemma TemplateStartsWithLetters(t: Template)
    ensures |TemplateForm(t).title| > 0 && !IsSpace(TemplateForm(t).title[0])
    ensures |TemplateForm(t).message| > 0 && !IsSpace(TemplateForm(t).message[0])
  {
    var f := TemplateForm(t);
    match t
    case Maintenance => assert f.title[0] == 'ص' && f.message[0] == 'س';
    case SpecialOffer => assert f.title[0] == 'ع' && f.message[0] == 'ع';
    case SystemUpdate => assert f.title[0] == 'ت' && f.message[0] == 'ت';
    case ReferralReward => assert f.title[0] == 'م' && f.message[0] == 'ا';
  }

  /** Each template writes one of the listed types. */
  lemma TemplateTypeListed(t: Template)
    ensures TemplateForm(t).notificationType in TypeValues
  {
    match t
    case Maintenance => assert TemplateForm(t).notificationType == TypeValues[1];
    case SpecialOffer => assert TemplateForm(t).notificationType == TypeValues[0];
    case SystemUpdate => assert TemplateForm(t).notificationType == TypeValues[1];
    case ReferralReward => assert TemplateForm(t).notificationType == TypeValues[7];
  }

  /** Every template fills a form the guard lets through, with one of the
      listed types. */
  lemma TemplatesAreSendable(t: Template)
    ensures !Incomplete(TemplateForm(t))
    ensures TemplateForm(t).notificationType in TypeValues
  {
    var f := TemplateForm(t);
    TemplateStartsWithLetters(t);
    NonSpaceStartNotBlank(f.title);
    NonSpaceStartNotBlank(f.message);
    TemplateTypeListed(t);
  }

  class NotificationPage {
    var form: BroadcastForm
    var loading: bool

    constructor()
      ensures form == DefaultForm && !loading
    {
      form := DefaultForm;
      loading := false;
    }

    /** A template button: the three fields take the template's values. */
    method ApplyTemplate(t: Template)
      modifies this
      ensures form == TemplateForm(t) && loading == old(loading)
    {
      form := TemplateForm(t);
    }

    method SetForm(f: BroadcastForm)
      modifies this
      ensures form == f && loading == old(loading)
    {
      form := f;
    }

    /** `handleSubmit`: an incomplete form is refused without a request;
        otherwise the form's three values (untrimmed) are broadcast, and
        only a success resets the form. */
    method HandleSubmit(outcome: Outcome<()>) returns (call: Option<Request>)
      modifies this
      ensures Incomplete(old(form)) ==> call == None && form == old(form) && loading == old(loading)
      ensures !Incomplete(old(form)) ==>
        call == Some(BroadcastRequest(old(form).title, old(form).message, Some(old(form).notificationType))) && !loading
      ensures !Incomplete(old(form)) && outcome.Success? ==> form == DefaultForm
      ensures outcome.Failure? ==> form == old(form)
    {
      if Incomplete(form) {
        call := None;
      } else {
        call := Some(BroadcastRequest(form.title, form.message, Some(form.notificationType)));
        SubmitDone(outcome);
      }
    }

    method SubmitDone(outcome: Outcome<()>)
      modifies this
      ensures outcome.Success? ==> form == DefaultForm
      ensures outcome.Failure? ==> form == old(form)
      ensures !loading
    {
      if outcome.Success? {
        form := DefaultForm;
      }
      loading := false;
    }
  }

  /** A template followed by a successful broadcast sends the template's
      values and leaves the form as it opened. */
  method TemplateThenSend(page: NotificationPage, t: Template) returns (call: Option<Request>)
    modifies page
    ensures call == Some(BroadcastRequest(TemplateForm(t).title, TemplateForm(t).message, Some(TemplateForm(t).notificationType)))
    ensures page.form == DefaultForm && !page.loading
  {
    page.ApplyTemplate(t);
    TemplatesAreSendable(t);
    call := page.HandleSubmit(Success(()));
  }
}
