// The welcome banner (WelcomeHero): the hour of the current time picks a
// greeting and its icon. The clock is a parameter, the hour `getHours()`
// returns.

module Welcome {

  datatype GreetingIcon = Sun | Cloud | Moon

  /** The hour-to-greeting chain. */
  function Greeting(hour: int): (string, GreetingIcon)
    requires 0 <= hour < 24
  {
    if hour >= 5 && hour < 12 then ("Buenos días", Sun)
    else if hour >= 12 && hour < 18 then ("Buenas tardes", Cloud)
    else ("Buenas noches", Moon)
  }

  /** Morning is 5 to 11, afternoon 12 to 17 and night every other hour;
      each hour gets exactly one greeting, always with its own icon. */
  lemma GreetingBands(hour: int)
    requires 0 <= hour < 24
    ensures Greeting(hour).0 == "Buenos días" <==> 5 <= hour < 12
    ensures Greeting(hour).0 == "Buenas tardes" <==> 12 <= hour < 18
    ensures Greeting(hour).0 == "Buenas noches" <==> hour < 5 || hour >= 18
    ensures Greeting(hour).1 == (if 5 <= hour < 12 then Sun else if 12 <= hour < 18 then Cloud else Moon)
  {
  }

  /** The boundary hours open the later band. */
  lemma Boundaries()
    ensures Greeting(4).0 == "Buenas noches" && Greeting(5).0 == "Buenos días"
    ensures Greeting(11).0 == "Buenos días" && Greeting(12).0 == "Buenas tardes"
    ensures Greeting(17).0 == "Buenas tardes" && Greeting(18).0 == "Buenas noches"
  {
  }
}
