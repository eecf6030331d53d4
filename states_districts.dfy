/** The states and their districts that seed the region-parameter store. */
module StatesDistricts {
  import opened Sequences

  const IndianStates: seq<string> := [
    "Andhra Pradesh", "Arunachal Pradesh", "Assam", "Bihar", "Chhattisgarh", "Goa",
    "Gujarat", "Haryana", "Himachal Pradesh", "Jharkhand", "Karnataka", "Kerala",
    "Madhya Pradesh", "Maharashtra", "Manipur", "Meghalaya", "Mizoram", "Nagaland",
    "Odisha", "Punjab", "Rajasthan", "Sikkim", "Tamil Nadu", "Telangana",
    "Tripura", "Uttar Pradesh", "Uttarakhand", "West Bengal"
  ]

  /** The district object literal, as its (state, districts) properties in declaration order. */
  const DistrictsByState: seq<(string, seq<string>)> := [
    ("Andhra Pradesh", ["Visakhapatnam", "Vijayawada", "Tirupati", "Guntur", "Nellore", "Kurnool", "Kakinada", "Anantapur", "Kadapa", "Eluru", "Ongole"]),
    ("Arunachal Pradesh", ["Itanagar", "Naharlagun", "Pasighat", "Tawang", "Bomdila", "Ziro", "Tezu", "Roing", "Yingkiong", "Aalo"]),
    ("Assam", ["Guwahati", "Silchar", "Dibrugarh", "Jorhat", "Tezpur", "Nagaon", "Bongaigaon", "Tinsukia", "Goalpara", "Karimganj", "Dhubri"]),
    ("Bihar", ["Patna", "Gaya", "Muzaffarpur", "Bhagalpur", "Darbhanga", "Arrah", "Begusarai", "Chhapra", "Katihar", "Purnia", "Samastipur"]),
    ("Chhattisgarh", ["Raipur", "Bilaspur", "Bhilai", "Korba", "Durg", "Rajnandgaon", "Raigarh", "Jagdalpur", "Ambikapur", "Dhamtari"]),
    ("Goa", ["Panaji", "Margao", "Vasco da Gama", "Mapusa", "Ponda", "Curchorem", "Canacona", "Bicholim", "Pernem", "Quepem"]),
    ("Gujarat", ["Ahmedabad", "Surat", "Vadodara", "Rajkot", "Bhavnagar", "Jamnagar", "Gandhinagar", "Junagadh", "Anand", "Bharuch", "Patan"]),
    ("Haryana", ["Faridabad", "Gurgaon", "Panipat", "Ambala", "Hisar", "Karnal", "Rohtak", "Sonipat", "Yamunanagar", "Panchkula"]),
    ("Himachal Pradesh", ["Shimla", "Mandi", "Dharamshala", "Solan", "Kullu", "Hamirpur", "Nahan", "Chamba", "Bilaspur", "Una"]),
    ("Jharkhand", ["Ranchi", "Jamshedpur", "Dhanbad", "Bokaro", "Hazaribagh", "Deoghar", "Giridih", "Ramgarh", "Phusro", "Medininagar"]),
    ("Karnataka", ["Bengaluru", "Mysuru", "Mangaluru", "Belagavi", "Kalaburagi", "Hubballi", "Shivamogga", "Tumakuru", "Davanagere", "Ballari", "Vijayapura"]),
    ("Kerala", ["Kozhikode", "Malappuram", "Kannur", "Wayanad", "Thrissur", "Palakkad", "Ernakulam", "Idukki", "Thiruvananthapuram", "Kollam", "Kottayam"]),
    ("Madhya Pradesh", ["Bhopal", "Indore", "Jabalpur", "Gwalior", "Ujjain", "Sagar", "Dewas", "Satna", "Rewa", "Ratlam", "Singrauli"]),
    ("Maharashtra", ["Mumbai", "Pune", "Nagpur", "Thane", "Nashik", "Aurangabad", "Solapur", "Kolhapur", "Amravati", "Nanded", "Sangli"]),
    ("Manipur", ["Imphal", "Thoubal", "Bishnupur", "Senapati", "Ukhrul", "Chandel", "Churachandpur", "Tamenglong", "Jiribam", "Kangpokpi"]),
    ("Meghalaya", ["Shillong", "Tura", "Jowai", "Nongstoin", "Williamnagar", "Baghmara", "Resubelpara", "Khliehriat", "Mawkyrwat", "Ampati"]),
    ("Mizoram", ["Aizawl", "Lunglei", "Champhai", "Kolasib", "Serchhip", "Siaha", "Lawngtlai", "Mamit", "Khawzawl", "Saitual"]),
    ("Nagaland", ["Kohima", "Dimapur", "Mokokchung", "Tuensang", "Wokha", "Zunheboto", "Phek", "Mon", "Peren", "Kiphire"]),
    ("Odisha", ["Bhubaneswar", "Cuttack", "Rourkela", "Brahmapur", "Sambalpur", "Puri", "Balasore", "Bhadrak", "Baripada", "Jeypore", "Jharsuguda"]),
    ("Punjab", ["Ludhiana", "Amritsar", "Jalandhar", "Patiala", "Bathinda", "Hoshiarpur", "Mohali", "Batala", "Pathankot", "Moga"]),
    ("Rajasthan", ["Jaipur", "Jodhpur", "Udaipur", "Kota", "Bikaner", "Ajmer", "Bharatpur", "Sikar", "Alwar", "Bhilwara"]),
    ("Sikkim", ["Gangtok", "Namchi", "Gyalshing", "Mangan", "Rangpo", "Singtam", "Jorethang", "Nayabazar", "Chungthang", "Ravangla"]),
    ("Tamil Nadu", ["Chennai", "Coimbatore", "Madurai", "Salem", "Tiruchirapalli", "Tirunelveli", "Erode", "Tiruppur", "Vellore", "Thanjavur", "Dindigul"]),
    ("Telangana", ["Hyderabad", "Warangal", "Nizamabad", "Karimnagar", "Khammam", "Ramagundam", "Mahbubnagar", "Nalgonda", "Adilabad", "Suryapet", "Siddipet"]),
    ("Tripura", ["Agartala", "Udaipur", "Dharmanagar", "Kailashahar", "Belonia", "Khowai", "Ambassa", "Sonamura", "Sabroom", "Santirbazar"]),
    ("Uttar Pradesh", ["Lucknow", "Kanpur", "Ghaziabad", "Agra", "Varanasi", "Meerut", "Prayagraj", "Aligarh", "Bareilly", "Moradabad", "Saharanpur"]),
    ("Uttarakhand", ["Dehradun", "Haridwar", "Roorkee", "Haldwani", "Rudrapur", "Kashipur", "Rishikesh", "Pithoragarh", "Ramnagar", "Khatima"]),
    ("West Bengal", ["Kolkata", "Siliguri", "Howrah", "Darjeeling", "Jalpaiguri", "Cooch Behar", "Alipurduar", "Durgapur", "Asansol", "Kharagpur", "Malda"])
  ]

  /** A district list whose names are pairwise different and never the empty string. */
  predicate WellFormedDistricts(ds: seq<string>) {
    Distinct(ds) && "" !in ds
  }

  lemma StatesShape()
    ensures |IndianStates| == 28 && Distinct(IndianStates)
  {}

  /** The object lists exactly the states of `IndianStates`, in the same order. */
  lemma EveryStateHasEntry()
    ensures |DistrictsByState| == |IndianStates|
    ensures forall k :: 0 <= k < |IndianStates| ==> DistrictsByState[k].0 == IndianStates[k]
  {}

  lemma DistrictsWellFormedFrom0()
    ensures forall k :: 0 <= k < 2 ==> WellFormedDistricts(DistrictsByState[k].1)
  {
    assert WellFormedDistricts(DistrictsByState[0].1);
    assert WellFormedDistricts(DistrictsByState[1].1);
  }

  lemma DistrictsWellFormedFrom2()
    ensures forall k :: 2 <= k < 4 ==> WellFormedDistricts(DistrictsByState[k].1)
  {
    assert WellFormedDistricts(DistrictsByState[2].1);
    assert WellFormedDistricts(DistrictsByState[3].1);
  }

  lemma DistrictsWellFormedFrom4()
    ensures forall k :: 4 <= k < 6 ==> WellFormedDistricts(DistrictsByState[k].1)
  {
    assert WellFormedDistricts(DistrictsByState[4].1);
    assert WellFormedDistricts(DistrictsByState[5].1);
  }

  lemma DistrictsWellFormedFrom6()
    ensures forall k :: 6 <= k < 8 ==> WellFormedDistricts(DistrictsByState[k].1)
  {
    assert WellFormedDistricts(DistrictsByState[6].1);
    assert WellFormedDistricts(DistrictsByState[7].1);
  }

  lemma DistrictsWellFormedFrom8()
    ensures forall k :: 8 <= k < 10 ==> WellFormedDistricts(DistrictsByState[k].1)
  {
    assert WellFormedDistricts(DistrictsByState[8].1);
    assert WellFormedDistricts(DistrictsByState[9].1);
  }

  lemma DistrictsWellFormedFrom10()
    ensures forall k :: 10 <= k < 12 ==> WellFormedDistricts(DistrictsByState[k].1)
  {
    assert WellFormedDistricts(DistrictsByState[10].1);
    assert WellFormedDistricts(DistrictsByState[11].1);
  }

  lemma DistrictsWellFormedFrom12()
    ensures forall k :: 12 <= k < 14 ==> WellFormedDistricts(DistrictsByState[k].1)
  {
    assert WellFormedDistricts(DistrictsByState[12].1);
    assert WellFormedDistricts(DistrictsByState[13].1);
  }

  lemma DistrictsWellFormedFrom14()
    ensures forall k :: 14 <= k < 16 ==> WellFormedDistricts(DistrictsByState[k].1)
  {
    assert WellFormedDistricts(DistrictsByState[14].1);
    assert WellFormedDistricts(DistrictsByState[15].1);
  }

  lemma DistrictsWellFormedFrom16()
    ensures forall k :: 16 <= k < 18 ==> WellFormedDistricts(DistrictsByState[k].1)
  {
    assert WellFormedDistricts(DistrictsByState[16].1);
    assert WellFormedDistricts(DistrictsByState[17].1);
  }

  lemma DistrictsWellFormedFrom18()
    ensures forall k :: 18 <= k < 20 ==> WellFormedDistricts(DistrictsByState[k].1)
  {
    assert WellFormedDistricts(DistrictsByState[18].1);
    assert WellFormedDistricts(DistrictsByState[19].1);
  }

  lemma DistrictsWellFormedFrom20()
    ensures forall k :: 20 <= k < 22 ==> WellFormedDistricts(DistrictsByState[k].1)
  {
    assert WellFormedDistricts(DistrictsByState[20].1);
    assert WellFormedDistricts(DistrictsByState[21].1);
  }

  lemma DistrictsWellFormedFrom22()
    ensures forall k :: 22 <= k < 24 ==> WellFormedDistricts(DistrictsByState[k].1)
  {
    assert WellFormedDistricts(DistrictsByState[22].1);
    assert WellFormedDistricts(DistrictsByState[23].1);
  }

  lemma DistrictsWellFormedFrom24()
    ensures forall k :: 24 <= k < 26 ==> WellFormedDistricts(DistrictsByState[k].1)
  {
    assert WellFormedDistricts(DistrictsByState[24].1);
    assert WellFormedDistricts(DistrictsByState[25].1);
  }

  lemma DistrictsWellFormedFrom26()
    ensures forall k :: 26 <= k < 28 ==> WellFormedDistricts(DistrictsByState[k].1)
  {
    assert WellFormedDistricts(DistrictsByState[26].1);
    assert WellFormedDistricts(DistrictsByState[27].1);
  }

  /** No state lists a district twice, and no district is named "". */
  lemma DistrictsWellFormed()
    ensures forall k :: 0 <= k < |DistrictsByState| ==> WellFormedDistricts(DistrictsByState[k].1)
  {
    DistrictsWellFormedFrom0();
    DistrictsWellFormedFrom2();
    DistrictsWellFormedFrom4();
    DistrictsWellFormedFrom6();
    DistrictsWellFormedFrom8();
    DistrictsWellFormedFrom10();
    DistrictsWellFormedFrom12();
    DistrictsWellFormedFrom14();
    DistrictsWellFormedFrom16();
    DistrictsWellFormedFrom18();
    DistrictsWellFormedFrom20();
    DistrictsWellFormedFrom22();
    DistrictsWellFormedFrom24();
    DistrictsWellFormedFrom26();
  }

  /** Some district names recur under different states. */
  lemma RepeatedDistrictNames()
    ensures DistrictsByState[4].0 == "Chhattisgarh" && "Bilaspur" in DistrictsByState[4].1
    ensures DistrictsByState[8].0 == "Himachal Pradesh" && "Bilaspur" in DistrictsByState[8].1
    ensures DistrictsByState[20].0 == "Rajasthan" && "Udaipur" in DistrictsByState[20].1
    ensures DistrictsByState[24].0 == "Tripura" && "Udaipur" in DistrictsByState[24].1
  {
    assert DistrictsByState[4].1[1] == "Bilaspur";
    assert DistrictsByState[8].1[8] == "Bilaspur";
    assert DistrictsByState[20].1[2] == "Udaipur";
    assert DistrictsByState[24].1[1] == "Udaipur";
  }
}
