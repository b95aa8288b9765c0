/** The suggestion table of research topics, by category, and the random
    pick of one topic: a category first, then a topic of that category. The
    two random numbers are parameters. */
module RandomTopics {
  import opened Chance

  /** One entry of `topicCategories`: a category and its topics. */
  datatype Category = Category(name: string, topics: seq<string>)

  /** What `getRandomTopic` returns. */
  datatype TopicChoice = TopicChoice(topic: string, category: string)

  /** `topicCategories`, in the order its keys are listed. */
  const TopicCategories: seq<Category> := [
    Category("Artificial Intelligence & Machine Learning", [
      "Deep Learning for Natural Language Processing",
      "Reinforcement Learning in Autonomous Systems",
      "Explainable AI and Model Interpretability",
      "Federated Learning for Privacy-Preserving ML",
      "Generative AI and Large Language Models",
      "Computer Vision for Medical Imaging",
      "AI Ethics and Bias Mitigation",
      "Neural Architecture Search and AutoML"]),
    Category("Software Engineering & Development", [
      "Microservices Architecture and Design Patterns",
      "DevOps and Continuous Integration/Deployment",
      "Cloud-Native Application Development",
      "Test-Driven Development Best Practices",
      "Code Quality and Technical Debt Management",
      "API Design and RESTful Architecture",
      "Containerization and Orchestration with Kubernetes",
      "Serverless Computing and Function-as-a-Service"]),
    Category("Cybersecurity & Privacy", [
      "Zero Trust Security Architecture",
      "Blockchain for Secure Data Management",
      "Privacy-Preserving Technologies and Differential Privacy",
      "Network Security and Intrusion Detection Systems",
      "Cryptography and Encryption Standards",
      "Security in IoT Devices and Networks",
      "Penetration Testing and Vulnerability Assessment",
      "Identity and Access Management Solutions"]),
    Category("Data Science & Analytics", [
      "Big Data Processing with Apache Spark",
      "Time Series Analysis and Forecasting",
      "A/B Testing and Experimental Design",
      "Data Visualization Best Practices",
      "Predictive Analytics for Business Intelligence",
      "Data Warehousing and ETL Processes",
      "Real-Time Stream Processing",
      "Data Governance and Quality Management"]),
    Category("Cloud Computing & Infrastructure", [
      "Multi-Cloud Strategy and Management",
      "Edge Computing and Fog Computing",
      "Cloud Cost Optimization Strategies",
      "Infrastructure as Code with Terraform",
      "Cloud Security and Compliance",
      "Hybrid Cloud Architecture",
      "Cloud Migration Best Practices",
      "Serverless Architecture Patterns"]),
    Category("Internet of Things & Embedded Systems", [
      "Smart Home Automation Systems",
      "Industrial IoT and Industry 4.0",
      "Low-Power Wide-Area Networks for IoT",
      "IoT Data Analytics and Edge Intelligence",
      "Wearable Technology and Health Monitoring",
      "Smart City Infrastructure",
      "IoT Security Challenges and Solutions",
      "Sensor Networks and Data Collection"]),
    Category("Web Technologies & User Experience", [
      "Progressive Web Applications Development",
      "Single Page Application Architecture",
      "Web Performance Optimization",
      "Accessibility in Web Design (WCAG Compliance)",
      "Responsive Design and Mobile-First Approach",
      "Web Components and Modern Framework Comparison",
      "User Interface Design Patterns",
      "Web3 and Decentralized Applications"]),
    Category("Emerging Technologies", [
      "Quantum Computing Applications",
      "Augmented Reality and Virtual Reality",
      "5G Networks and Mobile Technology",
      "Digital Twins in Manufacturing",
      "Brain-Computer Interfaces",
      "Autonomous Vehicles and Transportation",
      "Robotics and Automation",
      "Green Technology and Sustainable Computing"])]

  /** Every category of a table has topics. */
  predicate Stocked(table: seq<Category>) {
    forall i :: 0 <= i < |table| ==> |table[i].topics| > 0
  }

  /** The category names of a table: `Object.keys(topicCategories)`. */
  function Names(table: seq<Category>): (names: seq<string>)
    ensures |names| == |table|
    ensures forall i :: 0 <= i < |table| ==> names[i] == table[i].name
  {
    if table == [] then [] else Names(table[..|table| - 1]) + [table[|table| - 1].name]
  }

  /** The pick made on a table: the category at the first random index,
      then the topic of that category at the second. */
  function PickTopic(table: seq<Category>, r1: real, r2: real): (choice: TopicChoice)
    requires 0.0 <= r1 < 1.0 && 0.0 <= r2 < 1.0
    requires |table| > 0 && Stocked(table)
    ensures choice.category in Names(table)
    ensures exists i :: 0 <= i < |table| && table[i].name == choice.category && choice.topic in table[i].topics
  {
    var c := RandomIndex(r1, |table|);
    var topics := table[c].topics;
    var t := RandomIndex(r2, |topics|);
    assert Names(table)[c] == table[c].name;
    TopicChoice(topics[t], table[c].name)
  }

  /** The table has eight categories of eight topics each. */
  lemma TableShape()
    ensures |TopicCategories| == 8
    ensures forall i :: 0 <= i < |TopicCategories| ==> |TopicCategories[i].topics| == 8
  {
  }

  /** `getRandomTopic`: `r1` and `r2` stand for the two calls of
      `Math.random()`. */
  function GetRandomTopic(r1: real, r2: real): (choice: TopicChoice)
    requires 0.0 <= r1 < 1.0 && 0.0 <= r2 < 1.0
    ensures choice.category in Names(TopicCategories)
    ensures exists i :: (0 <= i < |TopicCategories| && TopicCategories[i].name == choice.category
                         && choice.topic in TopicCategories[i].topics)
  {
    TableShape();
    PickTopic(TopicCategories, r1, r2)
  }

  /** Every topic of every category can come up: the random numbers
      `c / n` and `t / m` pick category `c` of `n` and its topic `t` of
      `m`. */
  lemma EveryTopicReachable(table: seq<Category>, c: nat, t: nat)
    requires Stocked(table) && c < |table| && t < |table[c].topics|
    ensures var r1 := c as real / |table| as real;
      var r2 := t as real / |table[c].topics| as real;
      0.0 <= r1 < 1.0 && 0.0 <= r2 < 1.0
      && PickTopic(table, r1, r2) == TopicChoice(table[c].topics[t], table[c].name)
  {
    FloorOfFraction(c, |table|);
    FloorOfFraction(t, |table[c].topics|);
  }

  /** `Math.floor((k / n) * n)` is `k`. */
  lemma FloorOfFraction(k: nat, n: nat)
    requires k < n
    ensures 0.0 <= k as real / n as real < 1.0
    ensures RandomIndex(k as real / n as real, n) == k
  {
    var r := k as real / n as real;
    assert r * n as real == k as real;
  }
}
