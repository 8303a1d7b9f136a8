/**
 * The simulation form: a record of six fields, each input replacing one
 * field, handed on unchanged when the form is submitted.
 */
module InvestmentForm {
  import opened Common

  /** `formData`. Every field is kept as the text the input holds, except the checkbox. */
  datatype FormData = FormData(
    amount: string, startDate: string, endDate: string,
    reinvestDividends: bool, riskLevel: string, notificationFrequency: string)

  const InitialFormData: FormData := FormData("", "", "", false, "moderate", "daily")

  /** The options of the risk select, in order. */
  const RiskLevels: seq<string> := ["conservative", "moderate", "aggressive"]
  /** The options of the notification-frequency select, in order. */
  const NotificationFrequencies: seq<string> := ["daily", "weekly", "monthly"]

  class FormState {
    var formData: FormData
    /** The `simulationType` prop. */
    var simulationType: SimulationType

    /** The two selects only ever hold one of their options. */
    ghost predicate Valid()
      reads this
    {
      formData.riskLevel in RiskLevels && formData.notificationFrequency in NotificationFrequencies
    }

    constructor (t: SimulationType)
      ensures Valid()
      ensures formData == InitialFormData && simulationType == t
    {
      formData := InitialFormData;
      simulationType := t;
    }

    method ChangeAmount(value: string)
      requires Valid()
      modifies this`formData
      ensures Valid()
      ensures formData == old(formData).(amount := value)
    {
      formData := formData.(amount := value);
    }

    method ChangeStartDate(value: string)
      requires Valid()
      modifies this`formData
      ensures Valid()
      ensures formData == old(formData).(startDate := value)
    {
      formData := formData.(startDate := value);
    }

    /** The end-date input, rendered only in finite mode. */
    method ChangeEndDate(value: string)
      requires Valid() && simulationType == Finite
      modifies this`formData
      ensures Valid()
      ensures formData == old(formData).(endDate := value)
    {
      formData := formData.(endDate := value);
    }

    /** The frequency select, rendered only in daily mode; it yields one of its options. */
    method ChangeNotificationFrequency(value: string)
      requires Valid() && simulationType == Daily && value in NotificationFrequencies
      modifies this`formData
      ensures Valid()
      ensures formData == old(formData).(notificationFrequency := value)
    {
      formData := formData.(notificationFrequency := value);
    }

    /** The risk select; it yields one of its options. */
    method ChangeRiskLevel(value: string)
      requires Valid() && value in RiskLevels
      modifies this`formData
      ensures Valid()
      ensures formData == old(formData).(riskLevel := value)
    {
      formData := formData.(riskLevel := value);
    }

    method ChangeReinvestDividends(checked: bool)
      requires Valid()
      modifies this`formData
      ensures Valid()
      ensures formData == old(formData).(reinvestDividends := checked)
    {
      formData := formData.(reinvestDividends := checked);
    }

    /** A new `simulationType` prop: it changes which inputs are shown, never the record. */
    method ReceiveSimulationType(t: SimulationType)
      requires Valid()
      modifies this`simulationType
      ensures Valid()
      ensures simulationType == t && formData == old(formData)
    {
      simulationType := t;
    }

    /**
     * The browser fires the submit handler only when every rendered `required`
     * input is filled: the amount, the start date and, in finite mode, the end date.
     */
    predicate RequiredFilled()
      reads this
    {
      formData.amount != "" && formData.startDate != "" && (simulationType == Finite ==> formData.endDate != "")
    }

    /** Whether the end-date input is rendered. */
    function EndDateShown(): (shown: bool)
      reads this
      ensures shown <==> simulationType == Finite
    {
      simulationType == Finite
    }

    /** Whether the notification-frequency select is rendered. */
    function FrequencyShown(): (shown: bool)
      reads this
      ensures shown <==> simulationType == Daily
      ensures shown <==> !EndDateShown()
    {
      simulationType == Daily
    }

    /**
     * `handleSubmit`: hands the whole record to `onSimulate`, hidden fields
     * included, with no check of the amount's sign or the dates' order.
     */
    method HandleSubmit() returns (submitted: FormData)
      requires Valid()
      requires RequiredFilled()
      ensures submitted == formData
      ensures submitted.riskLevel in RiskLevels && submitted.notificationFrequency in NotificationFrequencies
    {
      submitted := formData;
    }
  }
}
