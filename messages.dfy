/**
 * What the core hands to its collaborators: replies to the user, named by
 * translation key and language, the subscription keyboard, and the entries
 * of the structured action log.
 */
module Messages {
  import opened Documents

  /** A button of an inline keyboard: the translation key of its label and its callback data. */
  datatype Button = Button(labelKey: string, callbackData: string)

  type Keyboard = seq<seq<Button>>

  /** A reply sent to the user. */
  datatype Reply =
      /** The localized string for `key`, formatted with `args`. */
    | Say(key: string, lang: string, args: map<string, string>)
      /** The localized success message for a payment, formatted with the calendar date of `expiresOnDay`. */
    | SayWithDate(key: string, lang: string, expiresOnDay: int)
      /** The localized string for `key`, sent with a keyboard. */
    | SayWithKeyboard(key: string, lang: string, keyboard: Keyboard)
      /** The subscription pitch: unlimited access to this bot and `otherBots` others. */
    | SubscriptionPitch(lang: string, otherBots: int)

  /** An entry of the structured action log (`log_action`). */
  datatype ActionLog = ActionLog(userId: int, action: string, botName: string, details: Document)

  const RATE_LIMIT_EXCEEDED: string := "rate_limit.exceeded"
  const CHOOSE_PLAN: string := "subscription.choose_plan"

  /** Callback data of the three subscription tiers. */
  const SUB_1MONTH: string := "sub_1month"
  const SUB_3MONTHS: string := "sub_3months"
  const SUB_1YEAR: string := "sub_1year"

  /**
   * The subscription keyboard: the one-month and three-month plans on the
   * first row, the one-year plan alone on the second. Only the labels depend
   * on the language, and they are translated when rendered.
   */
  function SubscriptionKeyboard(): (k: Keyboard)
    ensures |k| == 2 && |k[0]| == 2 && |k[1]| == 1
    ensures [k[0][0].callbackData, k[0][1].callbackData, k[1][0].callbackData] == [SUB_1MONTH, SUB_3MONTHS, SUB_1YEAR]
    ensures k[0][0].labelKey == "subscription.plans.1month"
    ensures k[0][1].labelKey == "subscription.plans.3months"
    ensures k[1][0].labelKey == "subscription.plans.1year"
  {
    [ [Button("subscription.plans.1month", SUB_1MONTH), Button("subscription.plans.3months", SUB_3MONTHS)],
      [Button("subscription.plans.1year", SUB_1YEAR)] ]
  }

  /**
   * `get_subscription_keyboard`: the pitch naming the other bots of the
   * fleet, then the keyboard to send with the plan choice.
   */
  function SubscriptionOffer(lang: string, botsAmount: int): (offer: (Reply, Keyboard))
    ensures offer.0.SubscriptionPitch? && offer.0.lang == lang
    ensures offer.0.otherBots == botsAmount - 1
    ensures offer.1 == SubscriptionKeyboard()
  {
    (SubscriptionPitch(lang, botsAmount - 1), SubscriptionKeyboard())
  }
}
