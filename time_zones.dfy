/**
 * The widget's time-zone catalogue and the lookup that maps a stored
 * time-zone identifier to the representative of its display group
 * (DateAndTimeWidgetLogic.cs, GetCurrentTimeZone and timeZonesMap).
 */
module TimeZones {

  /** One catalogue group: its identifiers, the representative first, and its display label. */
  type Group = (seq<string>, string)

  /** One entry of the time-zone enumeration: its position, the value it commits and its label. */
  datatype Entry = Entry(index: nat, value: string, displayName: string)

  /** Every group has a representative, and no representative is the empty string. */
  predicate WellFormed(table: seq<Group>)
  {
    forall k :: 0 <= k < |table| ==> |table[k].0| > 0 && table[k].0[0] != ""
  }

  /** `tz` is an element of no group's identifier list. */
  predicate Unlisted(table: seq<Group>, tz: string)
  {
    forall k :: 0 <= k < |table| ==> tz !in table[k].0
  }

  /** Groups 0 to 31 of the table (source lines 261 to 292). */
  const Block0: seq<Group> := [
    (["UTC"], "(UTC) Coordinated Universal Time"),  // line 261
    (["Africa/Casablanca"], "(UTC+00:00) Casablanca"),  // line 262
    (["Europe/London", "Europe/Dublin", "Europe/Lisbon", "GMT"], "(UTC+00:00) Dublin, Edinburgh, Lisbon, London"),  // line 263
    (["Africa/Monrovia", "Atlantic/Reykjavik"], "(UTC+00:00) Monrovia, Reykjavik"),  // line 264
    (["CET", "Europe/Amsterdam", "Europe/Berlin", "Europe/Rome", "Europe/Stockholm", "Europe/Vienna"], "(UTC+01:00) Amsterdam, Berlin, Bern, Rome, Stockholm, Vienna"),  // line 265
    (["Europe/Budapest", "Europe/Belgrade", "Europe/Bratislava", "Europe/Ljubljana", "Europe/Prague"], "(UTC+01:00) Belgrade, Bratislava, Budapest, Ljubljana, Prague"),  // line 266
    (["Europe/Brussels", "Europe/Copenhagen", "Europe/Madrid", "Europe/Paris"], "(UTC+01:00) Brussels, Copenhagen, Madrid, Paris"),  // line 267
    (["Europe/Belgrade", "Europe/Sarajevo", "Europe/Skopje", "Europe/Warsaw", "Europe/Zagreb"], "(UTC+01:00) Sarajevo, Skopje, Warsaw, Zagreb"),  // line 268
    (["Africa/Lagos"], "(UTC+01:00) West Central Africa"),  // line 269
    (["Africa/Windhoek"], "(UTC+01:00) Windhoek"),  // line 270
    (["Asia/Amman"], "(UTC+02:00) Amman"),  // line 271
    (["Europe/Athens", "Europe/Bucharest"], "(UTC+02:00) Athens, Bucharest"),  // line 272
    (["Asia/Beirut"], "(UTC+02:00) Beirut"),  // line 273
    (["Africa/Cairo"], "(UTC+02:00) Cairo"),  // line 274
    (["Europe/Chisinau"], "(UTC+02:00) Chisinau"),  // line 275
    (["Asia/Damascus"], "(UTC+02:00) Damascus"),  // line 276
    (["Asia/Gaza", "Asia/Hebron"], "(UTC+02:00) Gaza, Hebron"),  // line 277
    (["Africa/Harare"], "(UTC+02:00) Harare, Pretoria"),  // line 278
    (["Europe/Helsinki", "Europe/Kyiv", "Europe/Riga", "Europe/Sofia", "Europe/Tallinn", "Europe/Vilnius"], "(UTC+02:00) Helsinki, Kyiv, Riga, Sofia, Tallinn, Vilnius"),  // line 279
    (["Asia/Jerusalem"], "(UTC+02:00) Jerusalem"),  // line 280
    (["Europe/Kalining"], "(UTC+02:00) Kaliningrad"),  // line 281
    (["Africa/Tripoli"], "(UTC+02:00) Tripoli"),  // line 282
    (["Asia/Baghdad"], "(UTC+03:00) Baghdad"),  // line 283
    (["Europe/Istanbul"], "(UTC+03:00) Istanbul"),  // line 284
    (["Asia/Riyadh", "Asia/Kuwait"], "(UTC+03:00) Kuwait, Riyadh"),  // line 285
    (["Europe/Minsk"], "(UTC+03:00) Minsk"),  // line 286
    (["Europe/Moscow", "Europe/Volgogra"], "(UTC+03:00) Moscow, St. Petersburg, Volgograd"),  // line 287
    (["Africa/Nairobi"], "(UTC+03:00) Nairobi"),  // line 288
    (["Asia/Tehran"], "(UTC+03:30) Tehran"),  // line 289
    (["Asia/Dubai"], "(UTC+04:00) Abu Dhabi, Muscat"),  // line 290
    (["Europe/Astrakhan", "Europe/Ulyanovsk"], "(UTC+04:00) Astrakhan, Ulyanovsk"),  // line 291
    (["Asia/Baku"], "(UTC+04:00) Baku")  // line 292
  ]

  /** Groups 32 to 63 of the table (source lines 293 to 324). */
  const Block1: seq<Group> := [
    (["Europe/Samara"], "(UTC+04:00) Izhevsk, Samara"),  // line 293
    (["Indian/Mauritius"], "(UTC+04:00) Port Louis"),  // line 294
    (["Asia/Tbilisi"], "(UTC+04:00) Tbilisi"),  // line 295
    (["Asia/Yerevan"], "(UTC+04:00) Yerevan"),  // line 296
    (["Asia/Kabul"], "(UTC+04:30) Kabul"),  // line 297
    (["Asia/Ashgabat", "Asia/Tashkent"], "(UTC+05:00) Ashgabat, Tashkent"),  // line 298
    (["Asia/Yekaterinburg"], "(UTC+05:00) Ekaterinburg"),  // line 299
    (["Asia/Karachi"], "(UTC+05:00) Islamabad, Karachi"),  // line 300
    (["Asia/Kolkata"], "(UTC+05:30) Chennai, Kolkata, Mumbai, New Delhi"),  // line 301
    (["Asia/Colombo"], "(UTC+05:30) Sri Jayawardenepura"),  // line 302
    (["Asia/Kathmandu"], "(UTC+05:45) Kathmandu"),  // line 303
    (["Asia/Almaty"], "(UTC+06:00) Astana"),  // line 304
    (["Asia/Dhaka"], "(UTC+06:00) Dhaka"),  // line 305
    (["Asia/Omsk"], "(UTC+06:00) Omsk"),  // line 306
    (["Asia/Yangon", "Asia/Rangoon"], "(UTC+06:30) Yangon (Rangoon)"),  // line 307
    (["Asia/Bangkok", "Asia/Jakarta"], "(UTC+07:00) Bangkok, Hanoi, Jakarta"),  // line 308
    (["Asia/Barnaul"], "(UTC+07:00) Barnaul, Gorno-Altaysk"),  // line 309
    (["Asia/Hovd"], "(UTC+07:00) Hovd"),  // line 310
    (["Asia/Krasnoyarsk"], "(UTC+07:00) Krasnoyarsk"),  // line 311
    (["Asia/Novosibirsk"], "(UTC+07:00) Novosibirsk"),  // line 312
    (["Asia/Tomsk"], "(UTC+07:00) Tomsk"),  // line 313
    (["Asia/Hong_Kong", "Asia/Chongqing", "Asia/Urumqi"], "(UTC+08:00) Beijing, Chongqing, Hong Kong, Urumqi"),  // line 314
    (["Asia/Irkutsk"], "(UTC+08:00) Irkutsk"),  // line 315
    (["Asia/Singapore", "Asia/Kuala_Lumpur"], "(UTC+08:00) Kuala Lumpur, Singapore"),  // line 316
    (["Australia/Perth"], "(UTC+08:00) Perth"),  // line 317
    (["Asia/Taipei"], "(UTC+08:00) Taipei"),  // line 318
    (["Asia/Ulaanbaatar"], "(UTC+08:00) Ulaanbaatar"),  // line 319
    (["Asia/Pyongyang"], "(UTC+08:30) Pyongyang"),  // line 320
    (["Australia/Eucla"], "(UTC+08:45) Eucla"),  // line 321
    (["Asia/Chita"], "(UTC+09:00) Chita"),  // line 322
    (["Asia/Tokyo"], "(UTC+09:00) Osaka, Sapporo, Tokyo"),  // line 323
    (["Asia/Seoul"], "(UTC+09:00) Seoul")  // line 324
  ]

  /** Groups 64 to 95 of the table (source lines 325 to 356). */
  const Block2: seq<Group> := [
    (["Asia/Yakutsk"], "(UTC+09:00) Yakutsk"),  // line 325
    (["Australia/Adelaide"], "(UTC+09:30) Adelaide"),  // line 326
    (["Australia/Darwin"], "(UTC+09:30) Darwin"),  // line 327
    (["Australia/Brisbane"], "(UTC+10:00) Brisbane"),  // line 328
    (["Australia/Sydney", "Australia/Canberra", "Australia/Melbourne"], "(UTC+10:00) Canberra, Melbourne, Sydney"),  // line 329
    (["Pacific/Guam", "Pacific/Port_Moresby"], "(UTC+10:00) Guam, Port Moresby"),  // line 330
    (["Australia/Hobart"], "(UTC+10:00) Hobart"),  // line 331
    (["Asia/Vladivostok"], "(UTC+10:00) Vladivostok"),  // line 332
    (["Australia/Lord_Howe"], "(UTC+10:30) Lord Howe Island"),  // line 333
    (["Pacific/Bougainville"], "(UTC+11:00) Bougainville Island"),  // line 334
    (["Asia/Srednekolymsk"], "(UTC+11:00) Chokurdakh"),  // line 335
    (["Asia/Magadan"], "(UTC+11:00) Magadan"),  // line 336
    (["Pacific/Norfolk"], "(UTC+11:00) Norfolk Island"),  // line 337
    (["Asia/Sakhalin"], "(UTC+11:00) Sakhalin"),  // line 338
    (["Pacific/Noumea"], "(UTC+11:00) Solomon Is., New Caledonia"),  // line 339
    (["Asia/Anadyr"], "(UTC+12:00) Anadyr, Petropavlovsk-Kamchatsky"),  // line 340
    (["Pacific/Auckland"], "(UTC+12:00) Auckland, Wellington"),  // line 341
    (["Pacific/Funafuti"], "(UTC+12:00) Coordinated Universal Time +12"),  // line 342
    (["Pacific/Fiji"], "(UTC+12:00) Fiji"),  // line 343
    (["Pacific/Chatham"], "(UTC+12:45) Chatham Islands"),  // line 344
    (["Pacific/Tongatapu"], "(UTC+13:00) Nuku'alofa"),  // line 345
    (["Pacific/Apia"], "(UTC+13:00) Samoa"),  // line 346
    (["Pacific/Kiritimati"], "(UTC+14:00) Kiritimati Island"),  // line 347
    (["Atlantic/Azores"], "(UTC-01:00) Azores"),  // line 348
    (["Atlantic/Cape_Verde"], "(UTC-01:00) Cabo Verde Is."),  // line 349
    (["America/Noronha"], "(UTC-02:00) Coordinated Universal Time -02"),  // line 350
    (["America/Araguaina"], "(UTC-03:00) Araguaina"),  // line 351
    (["America/Sao_Paulo"], "(UTC-03:00) Brasilia"),  // line 352
    (["America/Buenos_Aires", "America/Argentina/Buenos_Aires"], "(UTC-03:00) Buenos Aires"),  // line 353
    (["America/Cayenne", "America/Fortaleza"], "(UTC-03:00) Cayenne, Fortaleza"),  // line 354
    (["America/Montevideo"], "(UTC-03:00) Montevideo"),  // line 355
    (["America/Miquelon"], "(UTC-03:00) Saint Pierre and Miquelon")  // line 356
  ]

  /** Groups 96 to 127 of the table (source lines 357 to 388). */
  const Block3: seq<Group> := [
    (["America/St_Johns"], "(UTC-03:30) Newfoundland"),  // line 357
    (["America/Asuncion"], "(UTC-04:00) Asuncion"),  // line 358
    (["America/Halifax"], "(UTC-04:00) Atlantic Time (Canada)"),  // line 359
    (["America/Caracas"], "(UTC-04:00) Caracas"),  // line 360
    (["America/Cuiaba"], "(UTC-04:00) Cuiaba"),  // line 361
    (["America/Manaus", "America/Argentina/San_Juan"], "(UTC-04:00) Georgetown, La Paz, Manaus, San Juan"),  // line 362
    (["America/Godthab"], "(UTC-03:00) Greenland"),  // line 363
    (["America/Santiago"], "(UTC-04:00) Santiago"),  // line 364
    (["America/Grand_Turk"], "(UTC-04:00) Turks and Caicos"),  // line 365
    (["America/Bogota", "America/Lima", "America/Rio_Branco"], "(UTC-05:00) Bogota, Lima, Quito, Rio Branco"),  // line 366
    (["America/Cancun"], "(UTC-05:00) Chetumal"),  // line 367
    (["Canada/Eastern"], "(UTC-05:00) Eastern Time (US & Canada)"),  // line 368
    (["America/Port-au-Prince"], "(UTC-05:00) Haiti"),  // line 369
    (["America/Havana"], "(UTC-05:00) Havana"),  // line 370
    (["America/Indiana/Indianapolis"], "(UTC-05:00) Indiana (East)"),  // line 371
    (["America/Chicago"], "(UTC-06:00) Central America"),  // line 372
    (["America/Winnipeg"], "(UTC-06:00) Central Time (US & Canada)"),  // line 373
    (["Pacific/Easter"], "(UTC-06:00) Easter Island"),  // line 374
    (["America/Mexico_City"], "(UTC-06:00) Guadalajara, Mexico City, Monterrey"),  // line 375
    (["America/Regina"], "(UTC-06:00) Saskatchewan"),  // line 376
    (["America/Phoenix"], "(UTC-07:00) Arizona"),  // line 377
    (["America/Chihuahua", "America/Mazatlan"], "(UTC-07:00) Chihuahua, La Paz, Mazatlan"),  // line 378
    (["America/Edmonton"], "(UTC-07:00) Mountain Time (US & Canada)"),  // line 379
    (["America/Tijuana"], "(UTC-08:00) Baja California"),  // line 380
    (["Pacific/Pitcairn"], "(UTC-08:00) Coordinated Universal Time-08"),  // line 381
    (["America/Vancouver"], "(UTC-08:00) Pacific Time (US & Canada)"),  // line 382
    (["America/Anchorage"], "(UTC-09:00) Alaska"),  // line 383
    (["Pacific/Gambier"], "(UTC-09:00) Coordinated Universal Time-09"),  // line 384
    (["Pacific/Marquesas"], "(UTC-09:30) Marquesas Islands"),  // line 385
    (["America/Adak"], "(UTC-10:00) Aleutian Islands"),  // line 386
    (["Pacific/Honolulu"], "(UTC-10:00) Hawaii"),  // line 387
    (["Pacific/Pago_Pago"], "(UTC-11:00) Coordinated Universal Time -11")  // line 388
  ]

  /**
   * The whole table, in declaration order. The source keeps it in a
   * Dictionary and walks it with foreach; the model takes the walk to visit
   * the entries in insertion order.
   */
  const TimeZonesMap: seq<Group> := Block0 + Block1 + Block2 + Block3

  /**
   * The position of the first group whose list holds `tz` as an element
   * (List<string>.Contains, exact equality), or |table| when there is none.
   */
  function FirstIndex(table: seq<Group>, tz: string): (k: nat)
    ensures k <= |table|
    ensures forall j :: 0 <= j < k ==> tz !in table[j].0
    ensures k < |table| ==> tz in table[k].0
  {
    if table == [] then 0
    else if tz in table[0].0 then 0
    else 1 + FirstIndex(table[1..], tz)
  }

  /**
   * The representative time zone of `tz`: the first element of the first
   * group that lists `tz`, or "" when no group does.
   */
  function Resolve(table: seq<Group>, tz: string): (r: string)
    requires WellFormed(table)
    ensures r == "" <==> Unlisted(table, tz)
    ensures r != "" ==> exists k :: 0 <= k < |table| && tz in table[k].0 && r == table[k].0[0] &&
                                    forall j :: 0 <= j < k ==> tz !in table[j].0
  {
    var k := FirstIndex(table, tz);
    if k < |table| then table[k].0[0] else ""
  }

  /** The entries the widget adds to the time-zone enumeration, one per group in table order. */
  function Enumeration(table: seq<Group>): (e: seq<Entry>)
    requires WellFormed(table)
    ensures |e| == |table|
    ensures forall i :: 0 <= i < |table| ==> e[i] == Entry(i, table[i].0[0], table[i].1)
  {
    seq(|table|, i requires 0 <= i < |table| => Entry(i, table[i].0[0], table[i].1))
  }

  /** GetCurrentTimeZone: the early-return foreach over the catalogue `table`. */
  method GetCurrentTimeZone(table: seq<Group>, timeZone: string) returns (r: string)
    requires WellFormed(table)
    ensures r == Resolve(table, timeZone)
  {
    var i := 0;
    while i < |table|
      invariant i <= |table|
      invariant forall j :: 0 <= j < i ==> timeZone !in table[j].0
    {
      var currentTimeZone := table[i].0;
      if timeZone in currentTimeZone {
        FirstIndexIsFirstMatch(table, timeZone, i);
        return currentTimeZone[0];
      }
      i := i + 1;
    }
    FirstIndexIsFirstMatch(table, timeZone, i);
    return "";
  }

  /** FirstIndex is the one position before which nothing matches and at which `tz` matches (or the end). */
  lemma FirstIndexIsFirstMatch(table: seq<Group>, tz: string, k: nat)
    requires k <= |table|
    requires forall j :: 0 <= j < k ==> tz !in table[j].0
    requires k < |table| ==> tz in table[k].0
    ensures FirstIndex(table, tz) == k
  {
  }

  /** Resolving in a concatenation: the first part wins whenever it resolves. */
  lemma ResolveConcat(a: seq<Group>, b: seq<Group>, tz: string)
    requires WellFormed(a) && WellFormed(b)
    ensures WellFormed(a + b)
    ensures Resolve(a + b, tz) == if Resolve(a, tz) != "" then Resolve(a, tz) else Resolve(b, tz)
  {
    var i, j := FirstIndex(a, tz), FirstIndex(b, tz);
    if i < |a| {
      FirstIndexIsFirstMatch(a + b, tz, i);
    } else {
      FirstIndexIsFirstMatch(a + b, tz, |a| + j);
    }
  }

  lemma Block0WellFormed() ensures WellFormed(Block0) {}
  lemma Block1WellFormed() ensures WellFormed(Block1) {}
  lemma Block2WellFormed() ensures WellFormed(Block2) {}
  lemma Block3WellFormed() ensures WellFormed(Block3) {}

  lemma CatalogueWellFormed()
    ensures WellFormed(TimeZonesMap)
  {
    Block0WellFormed();
    Block1WellFormed();
    Block2WellFormed();
    Block3WellFormed();
    ResolveConcat(Block0, Block1, "");
    ResolveConcat(Block0 + Block1, Block2, "");
    ResolveConcat(Block0 + Block1 + Block2, Block3, "");
  }

  /** No identifier is listed in two different groups. */
  predicate Disjoint(table: seq<Group>)
  {
    forall i, j, m :: 0 <= i < j < |table| && 0 <= m < |table[j].0| ==> table[j].0[m] !in table[i].0
  }

  /**
   * Resolution is idempotent on a table whose groups do not overlap: the
   * representative of a group resolves to itself.
   */
  lemma ResolveIdempotentWhenDisjoint(table: seq<Group>, tz: string)
    requires WellFormed(table) && Disjoint(table) && Resolve(table, tz) != ""
    ensures Resolve(table, Resolve(table, tz)) == Resolve(table, tz)
  {
    var k := FirstIndex(table, tz);
    var r := table[k].0[0];
    assert r in table[k].0;
    forall j | 0 <= j < k ensures r !in table[j].0 {
      assert table[k].0[0] !in table[j].0;
    }
    FirstIndexIsFirstMatch(table, r, k);
  }

  /** Every non-empty resolution is the value of some enumeration entry. */
  lemma ResolvedValueIsEnumerated(table: seq<Group>, tz: string)
    requires WellFormed(table) && Resolve(table, tz) != ""
    ensures exists i :: 0 <= i < |Enumeration(table)| && Enumeration(table)[i].value == Resolve(table, tz)
  {
    var k := FirstIndex(table, tz);
    assert Enumeration(table)[k].value == Resolve(table, tz);
  }
}
